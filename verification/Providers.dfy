/**
 The provider stage (crates/loadsmith-core/src/providers.rs): which instance
 resolves which references, and when their answers are complete.
 */
module Providers {
  import opened Wrappers
  import opened Template
  import D = Document

  datatype Job = Job(instance: string, references: seq<string>)

  function CallsOf(job: Job): (r: set<SecretRef>) { set x | x in job.references :: SecretRef(job.instance, x) }

  function Calls(jobs: seq<Job>): set<SecretRef> {
    if jobs == [] then {} else Calls(jobs[..|jobs| - 1]) + CallsOf(jobs[|jobs| - 1])
  }

  function Count(jobs: seq<Job>): nat {
    if jobs == [] then 0 else Count(jobs[..|jobs| - 1]) + |jobs[|jobs| - 1].references|
  }

  /** One job an instance, and no reference twice in a job. */
  predicate Once(jobs: seq<Job>) {
    && (forall i, j :: 0 <= i < j < |jobs| ==> jobs[i].instance != jobs[j].instance)
    && (forall i :: 0 <= i < |jobs| ==> OnceEach(jobs[i].references))
  }

  predicate OnceEach(s: seq<string>) { forall i, j :: 0 <= i < j < |s| ==> s[i] != s[j] }

  lemma {:induction false} InCalls(jobs: seq<Job>, c: SecretRef)
    ensures c in Calls(jobs) <==> exists i :: 0 <= i < |jobs| && c in CallsOf(jobs[i])
  {
    if jobs != [] {
      var before := jobs[..|jobs| - 1];
      InCalls(before, c);
      if c in Calls(before) {
        var i :| 0 <= i < |before| && c in CallsOf(before[i]);
        assert c in CallsOf(jobs[i]);
      }
      if i: nat :| i < |jobs| && c in CallsOf(jobs[i]) {
        if i < |before| { assert c in CallsOf(before[i]); }
      }
    }
  }

  // ----- grouping the calls -------------------------------------------------------------

  /** The distinct references of one instance, in document order. */
  function ReferencesOf(secrets: seq<SecretRef>, instance: string): (r: seq<string>)
    ensures forall x :: x in r <==> SecretRef(instance, x) in secrets
    ensures OnceEach(r)
  {
    if secrets == [] then []
    else
      var before, last := ReferencesOf(secrets[..|secrets| - 1], instance), secrets[|secrets| - 1];
      assert forall c :: c in secrets <==> c in secrets[..|secrets| - 1] || c == last;
      if last.instance == instance && last.reference !in before then before + [last.reference] else before
  }

  /** The declared instances some call names, in the order of their first call. */
  function InstancesOf(secrets: seq<SecretRef>, providers: set<string>): (r: seq<string>)
    ensures forall x :: x in r <==> x in providers && exists c :: c in secrets && c.instance == x
    ensures OnceEach(r)
  {
    if secrets == [] then []
    else
      var before, last := InstancesOf(secrets[..|secrets| - 1], providers), secrets[|secrets| - 1];
      assert forall c :: c in secrets <==> c in secrets[..|secrets| - 1] || c == last;
      if last.instance in providers && last.instance !in before then before + [last.instance] else before
  }

  function JobsOf(secrets: seq<SecretRef>, providers: set<string>): (r: seq<Job>)
    ensures |r| == |InstancesOf(secrets, providers)|
    ensures forall i :: 0 <= i < |r| ==>
              r[i] == Job(InstancesOf(secrets, providers)[i], ReferencesOf(secrets, InstancesOf(secrets, providers)[i]))
  {
    var instances := InstancesOf(secrets, providers);
    seq(|instances|, i requires 0 <= i < |instances| => Job(instances[i], ReferencesOf(secrets, instances[i])))
  }

  /** Where an instance's job is; past the end if it has none. */
  method FindJob(jobs: seq<Job>, instance: string) returns (k: nat)
    ensures k <= |jobs| && (k < |jobs| ==> jobs[k].instance == instance)
    ensures forall i :: 0 <= i < k ==> jobs[i].instance != instance
  {
    k := 0;
    while k < |jobs| && jobs[k].instance != instance
      invariant k <= |jobs| && forall i :: 0 <= i < k ==> jobs[i].instance != instance
    {
      k := k + 1;
    }
  }

  lemma OtherInstancesStay(secrets: seq<SecretRef>, last: SecretRef, instance: string)
    ensures ReferencesOf(secrets + [last], instance)
            == ReferencesOf(secrets, instance)
               + if last.instance == instance && last.reference !in ReferencesOf(secrets, instance) then [last.reference] else []
  {
    assert (secrets + [last])[..|secrets|] == secrets;
  }

  /** One call more: its reference joins its instance's job, or starts one. */
  lemma NextCall(secrets: seq<SecretRef>, call: SecretRef, providers: set<string>, k: nat)
    requires var jobs := JobsOf(secrets, providers);
             k <= |jobs| && (k < |jobs| ==> jobs[k].instance == call.instance)
             && forall i :: 0 <= i < k ==> jobs[i].instance != call.instance
    ensures var jobs := JobsOf(secrets, providers);
            JobsOf(secrets + [call], providers)
            == if k < |jobs| then
                 if call.reference in jobs[k].references then jobs
                 else jobs[k := Job(call.instance, jobs[k].references + [call.reference])]
               else if call.instance in providers then jobs + [Job(call.instance, [call.reference])]
               else jobs
  {
    var jobs, instances := JobsOf(secrets, providers), InstancesOf(secrets, providers);
    var now := secrets + [call];
    assert now[..|secrets|] == secrets;
    var added := call.instance in providers && call.instance !in instances;
    assert InstancesOf(now, providers) == if added then instances + [call.instance] else instances;
    assert k < |jobs| ==> instances[k] == call.instance;
    assert added <==> k == |jobs| && call.instance in providers;
    hide InstancesOf, ReferencesOf;
    if added { NoneBefore(secrets, providers, call.instance); }
    var next := if k < |jobs| then
                  if call.reference in jobs[k].references then jobs
                  else jobs[k := Job(call.instance, jobs[k].references + [call.reference])]
                else if call.instance in providers then jobs + [Job(call.instance, [call.reference])]
                else jobs;
    forall i | 0 <= i < |next| ensures next[i] == JobsOf(now, providers)[i] {
      OtherInstancesStay(secrets, call, InstancesOf(now, providers)[i]);
    }
  }

  /** Groups the calls by instance; a call of an undeclared one is skipped. */
  method JobsFor(secrets: seq<SecretRef>, providers: set<string>) returns (jobs: seq<Job>)
    ensures jobs == JobsOf(secrets, providers)
  {
    jobs := [];
    for n := 0 to |secrets|
      invariant jobs == JobsOf(secrets[..n], providers)
    {
      hide JobsOf;
      var call := secrets[n];
      assert secrets[..n + 1] == secrets[..n] + [call];
      var k := FindJob(jobs, call.instance);
      NextCall(secrets[..n], call, providers, k);
      if k < |jobs| {
        if call.reference !in jobs[k].references {
          jobs := jobs[k := Job(call.instance, jobs[k].references + [call.reference])];
        }
      } else if call.instance in providers {
        jobs := jobs + [Job(call.instance, [call.reference])];
      }
    }
    assert secrets[..|secrets|] == secrets;
  }

  lemma NoneBefore(secrets: seq<SecretRef>, providers: set<string>, instance: string)
    requires instance in providers && instance !in InstancesOf(secrets, providers)
    ensures ReferencesOf(secrets, instance) == []
  {
  }

  /** The jobs cover exactly the calls of declared instances, each once. */
  lemma JobsCoverEveryCallOnce(secrets: seq<SecretRef>, providers: set<string>)
    ensures Once(JobsOf(secrets, providers))
    ensures forall c :: c in Calls(JobsOf(secrets, providers)) <==> c in secrets && c.instance in providers
    ensures |Calls(JobsOf(secrets, providers))| == Count(JobsOf(secrets, providers))
  {
    var jobs, instances := JobsOf(secrets, providers), InstancesOf(secrets, providers);
    forall c ensures c in Calls(jobs) <==> c in secrets && c.instance in providers {
      InCalls(jobs, c);
      if c in secrets && c.instance in providers {
        assert c.instance in instances;
        var i :| 0 <= i < |instances| && instances[i] == c.instance;
        assert c == SecretRef(instances[i], c.reference) && c.reference in jobs[i].references;
        assert c in CallsOf(jobs[i]);
      }
      if i: nat :| i < |jobs| && c in CallsOf(jobs[i]) {
        assert instances[i] in instances;
      }
    }
    CountIsCardinality(jobs);
  }

  lemma {:induction false} CountIsCardinality(jobs: seq<Job>)
    requires Once(jobs)
    ensures |Calls(jobs)| == Count(jobs)
  {
    if jobs != [] {
      var before, last := jobs[..|jobs| - 1], jobs[|jobs| - 1];
      CountIsCardinality(before);
      assert Calls(before) !! CallsOf(last) by {
        forall c | c in Calls(before) ensures c !in CallsOf(last) {
          InCalls(before, c);
        }
      }
      OneCallAReference(last.instance, last.references);
      assert CallsOf(last) == CallsOf(Job(last.instance, last.references));
    }
  }

  lemma {:induction false} OneCallAReference(instance: string, references: seq<string>)
    requires OnceEach(references)
    ensures |CallsOf(Job(instance, references))| == |references|
  {
    if references == [] {
      assert CallsOf(Job(instance, references)) == {};
    } else {
      var before, last := references[..|references| - 1], references[|references| - 1];
      OneCallAReference(instance, before);
      assert forall x :: x in references <==> x in before || x == last;
      assert CallsOf(Job(instance, references)) == CallsOf(Job(instance, before)) + {SecretRef(instance, last)};
      assert SecretRef(instance, last) !in CallsOf(Job(instance, before));
    }
  }

  // ----- one conversation ------------------------------------------------------------------

  /** What a provider says when it is asked: an answer under the id of a
      question, with a value or an error, or anything else; nothing more is
      heard of one that died, was too slow or is stopped. */
  datatype Reply = Answer(id: nat, value: Option<string>, error: Option<string>) | Other

  /** How the conversation ends once every question was answered. */
  datatype Closing = FinishedWell | FinishedBadly | Died | Stopped

  /** The answer to the question `id`: exactly a value. */
  predicate Answers(r: Reply, id: nat) { r.Answer? && r.id == id && r.value.Some? && r.error.None? }

  /** Every question was answered, in the order in which they were asked. */
  predicate AllAnswered(references: seq<string>, replies: seq<Reply>) {
    |references| <= |replies| && forall i :: 0 <= i < |references| ==> Answers(replies[i], i + 1)
  }

  /** The value for each reference. */
  function ValuesOf(references: seq<string>, replies: seq<Reply>): (r: map<string, string>)
    requires AllAnswered(references, replies)
    ensures forall x :: x in r <==> x in references
  {
    if references == [] then map[]
    else
      var before, last := references[..|references| - 1], references[|references| - 1];
      assert forall x :: x in references <==> x in before || x == last;
      ValuesOf(before, replies)[last := replies[|references| - 1].value.value]
  }

  datatype Problem = ProtocolViolation | Unresolved | NoAnswer | NotFinished

  /** One question after the other, each waiting for its answer; then the
      input is closed and the provider has to finish. */
  method Converse(references: seq<string>, replies: seq<Reply>, closing: Closing)
    returns (r: Result<map<string, string>, Problem>)
    ensures r.Ok? <==> AllAnswered(references, replies) && closing.FinishedWell?
    ensures r.Ok? ==> r.value == ValuesOf(references, replies)
  {
    var resolved: map<string, string> := map[];
    for i := 0 to |references|
      invariant AllAnswered(references[..i], replies) && resolved == ValuesOf(references[..i], replies)
    {
      if i == |replies| {
        return Err(NoAnswer);
      }
      var reply := replies[i];
      if !reply.Answer? || reply.id != i + 1 {
        return Err(ProtocolViolation);
      }
      if reply.value.Some? == reply.error.Some? {
        return Err(ProtocolViolation);
      }
      if reply.error.Some? {
        return Err(Unresolved);
      }
      assert references[..i + 1][..i] == references[..i];
      resolved := resolved[references[i] := reply.value.value];
    }
    assert references[..|references|] == references;
    r := if closing.FinishedWell? then Ok(resolved) else Err(NotFinished);
  }

  // ----- collecting the answers -----------------------------------------------------------

  /** How one session ended. `induced`: it stopped because another one failed. */
  datatype Session = Resolved(instance: string, pairs: map<string, string>) | Failed(induced: bool) | Panicked

  datatype ResolveError = Interrupted | RootCause | Incomplete

  /** The values of the sessions, in the order they ended. */
  function Collected(sessions: seq<Session>): map<SecretRef, string> {
    if sessions == [] then map[]
    else
      var before, last := Collected(sessions[..|sessions| - 1]), sessions[|sessions| - 1];
      if last.Resolved? then before + (map x | x in last.pairs :: SecretRef(last.instance, x) := last.pairs[x]) else before
  }

  predicate HasRootCause(sessions: seq<Session>) {
    exists i :: 0 <= i < |sessions| && (sessions[i].Panicked? || sessions[i] == Failed(false))
  }

  /** The values are taken only if nothing failed and none is missing. */
  method ResolveAll(jobs: seq<Job>, sessions: seq<Session>, signalled: bool)
    returns (r: Result<map<SecretRef, string>, ResolveError>)
    ensures r.Ok? <==> !signalled && !HasRootCause(sessions) && |Collected(sessions)| == Count(jobs)
    ensures r.Ok? ==> r.value == Collected(sessions)
    ensures signalled ==> r == Err(Interrupted)
  {
    var count := 0;
    for i := 0 to |jobs|
      invariant count == Count(jobs[..i])
    {
      assert jobs[..i + 1][..i] == jobs[..i];
      count := count + |jobs[i].references|;
    }
    assert jobs[..|jobs|] == jobs;
    var values: map<SecretRef, string>, root := map[], false;
    for i := 0 to |sessions|
      invariant values == Collected(sessions[..i]) && root == HasRootCause(sessions[..i])
    {
      assert sessions[..i + 1][..i] == sessions[..i];
      RootCauseStep(sessions[..i], sessions[i]);
      assert sessions[..i + 1] == sessions[..i] + [sessions[i]];
      match sessions[i] {
        case Resolved(instance, pairs) => values := values + (map x | x in pairs :: SecretRef(instance, x) := pairs[x]);
        case Failed(induced) => root := root || !induced;
        case Panicked => root := true;
      }
    }
    assert sessions[..|sessions|] == sessions;
    if signalled {
      return Err(Interrupted);
    }
    if root {
      return Err(RootCause);
    }
    r := if |values| == count then Ok(values) else Err(Incomplete);
  }

  lemma RootCauseStep(sessions: seq<Session>, s: Session)
    ensures HasRootCause(sessions + [s]) <==> HasRootCause(sessions) || s.Panicked? || s == Failed(false)
  {
    if HasRootCause(sessions) {
      var i :| 0 <= i < |sessions| && (sessions[i].Panicked? || sessions[i] == Failed(false));
      assert (sessions + [s])[i] == sessions[i];
    }
    if s.Panicked? || s == Failed(false) { assert (sessions + [s])[|sessions|] == s; }
  }

  /** What a session that resolved came from: the conversation of one job. */
  ghost predicate Conversed(s: Session, job: Job) {
    s.Resolved? && s.instance == job.instance
    && exists replies :: AllAnswered(job.references, replies) && s.pairs == ValuesOf(job.references, replies)
  }

  /** Each session is that of one of the jobs, however it ended. */
  ghost predicate SessionsOf(sessions: seq<Session>, jobs: seq<Job>) {
    forall i :: 0 <= i < |sessions| && sessions[i].Resolved? ==> exists j :: 0 <= j < |jobs| && Conversed(sessions[i], jobs[j])
  }

  /** A session that resolved answers all it was asked, and nothing else. */
  lemma ConversationAnswersItsJob(s: Session, job: Job)
    requires Conversed(s, job)
    ensures forall x :: x in s.pairs <==> x in job.references
    ensures forall x :: x in s.pairs ==> SecretRef(s.instance, x) in CallsOf(job)
  {
  }

  lemma {:induction false} CollectedWasAsked(sessions: seq<Session>, jobs: seq<Job>)
    requires SessionsOf(sessions, jobs)
    ensures Collected(sessions).Keys <= Calls(jobs)
  {
    hide Conversed;
    if sessions != [] {
      var before, last := sessions[..|sessions| - 1], sessions[|sessions| - 1];
      CollectedWasAsked(before, jobs);
      if last.Resolved? {
        var j :| 0 <= j < |jobs| && Conversed(last, jobs[j]);
        ConversationAnswersItsJob(last, jobs[j]);
        forall c | c in Collected(sessions) && c !in Collected(before) ensures c in Calls(jobs) {
          assert c in CallsOf(jobs[j]);
          InCalls(jobs, c);
        }
      }
    }
  }

  lemma SubsetOfSameSize<T>(a: set<T>, b: set<T>)
    requires a <= b && |a| == |b|
    ensures a == b
  {
    assert |b - a| == 0;
  }

  /** The count is enough: whatever order the sessions end in, and whichever of
      them stopped early, a result that is accepted has every secret's value. */
  lemma AcceptedMeansComplete(d: D.Doc, sessions: seq<Session>)
    requires D.Checked(d)
    requires var jobs := JobsOf(d.secrets, d.providers);
             SessionsOf(sessions, jobs) && |Collected(sessions)| == Count(jobs)
    ensures Collected(sessions).Keys == set c | c in d.secrets
  {
    var jobs := JobsOf(d.secrets, d.providers);
    JobsCoverEveryCallOnce(d.secrets, d.providers);
    CollectedWasAsked(sessions, jobs);
    SubsetOfSameSize(Collected(sessions).Keys, Calls(jobs));
    forall c | c in d.secrets ensures c.instance in d.providers { SecretIsDeclared(d, c); }
  }

  lemma SecretIsDeclared(d: D.Doc, c: SecretRef)
    requires D.Checked(d) && c in d.secrets
    ensures c.instance in d.providers
  {
    var found := Scan(d.raw, "").value;
    assert Called(found, c);
    var i :| 0 <= i < |found| && found[i].call == c;
    assert D.Allowed(found[i], d.providers);
  }

  /** From the check to the config: with the accepted values a checked document
      resolves, unless a variable or a file is missing. */
  lemma CheckedAndResolved(d: D.Doc, sessions: seq<Session>, w: World)
    requires D.Checked(d)
    requires var jobs := JobsOf(d.secrets, d.providers);
             SessionsOf(sessions, jobs) && |Collected(sessions)| == Count(jobs)
    ensures D.Resolve(d, Collected(sessions), w).Err? ==> Foreign(D.Resolve(d, Collected(sessions), w).error)
    ensures D.CheckBuiltins(d, w).Ok? ==> D.Resolve(d, Collected(sessions), w).Ok?
  {
    hide D.Checked, D.Resolve, D.CheckBuiltins, JobsOf, Collected;
    AcceptedMeansComplete(d, sessions);
    D.CheckSuffices(d, Collected(sessions), w);
  }
}
