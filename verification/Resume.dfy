/**
 How an attempt begins from what the state holds, and how attempts follow one
 another (crates/loadsmith-core/src/runner.rs: `resumable`, the decision in
 `run_attempt`, the loop of `run_pipeline`).
 */
module Resume {
  import opened Wrappers
  import opened Source
  import opened SinkLedger
  import SS = StateSupervisor

  datatype Options = Options(runId: nat, configHash: nat, mayResume: bool, startedAt: nat, interval: nat, withSink: bool)

  /** The failed run to continue, if this run may. */
  function Resumable(record: SS.ResumeRecord, o: Options): Option<SS.ResumeRecord> {
    if record.runId == o.runId then Some(record)
    else if !o.mayResume || record.configHash != o.configHash then None
    else Some(record)
  }

  function Resuming(doc: Option<SS.Doc>, o: Options): Option<SS.ResumeRecord> {
    if doc.Some? && doc.value.resume.Some? then Resumable(doc.value.resume.value, o) else None
  }

  /** What the source is given to start with. */
  datatype Given = Given(cursor: Option<Cursor>, token: Option<Token>)

  function GivenTo(doc: Option<SS.Doc>, o: Options): Given {
    var r := Resuming(doc, o);
    Given(if doc.Some? then doc.value.cursor else None, if r.Some? then r.value.token else None)
  }

  /** The source goes on where it stopped: it accepted the token, if there is
      one (`resumed` is its answer), or it resumes at the watermark. */
  predicate Continues(doc: Option<SS.Doc>, o: Options, resumed: Option<bool>) {
    var r := Resuming(doc, o);
    r.Some? && if r.value.token.Some? then resumed == Some(true) else doc.value.cursor.Some?
  }

  function FirstObjectSeq(doc: Option<SS.Doc>, o: Options, resumed: Option<bool>): Option<nat> {
    if Continues(doc, o, resumed) then Resuming(doc, o).value.nextObjectSeq else None
  }

  /** The run as the state supervisor gets it. */
  function RunOf(doc: Option<SS.Doc>, o: Options, resumed: Option<bool>): SS.Run {
    var r := Resuming(doc, o);
    var id := if r.Some? then r.value.runId else o.runId;
    var startedAt := if r.Some? then r.value.startedAt else o.startedAt;
    SS.Run(id, o.interval, Some(SS.Identity(startedAt, o.configHash, FirstObjectSeq(doc, o, resumed))), doc, o.withSink)
  }

  // ----- what a failure leaves is taken up ------------------------------------------

  /** This run may go on with what that one left: it is the same run, or it may
      resume and the pipeline did not change. */
  predicate MayGoOn(o: Options, runId: nat, configHash: nat) {
    o.runId == runId || (o.mayResume && o.configHash == configHash)
  }

  /** A failed run recorded in the state is continued exactly by a run that may;
      it then has its id and start time and its source gets its token. Any
      other run is a new one, without a token. The watermark is handed on to
      both. */
  lemma RecordedRunIsContinuedIff(doc: Option<SS.Doc>, o: Options, resumed: Option<bool>)
    ensures var run, start := RunOf(doc, o, resumed), GivenTo(doc, o);
            var goesOn := doc.Some? && doc.value.resume.Some?
                          && MayGoOn(o, doc.value.resume.value.runId, doc.value.resume.value.configHash);
            && run.prior == doc && run.resume.Some? && run.resume.value.configHash == o.configHash
            && run.withSink == o.withSink && run.interval == o.interval
            && (doc.Some? ==> start.cursor == doc.value.cursor) && (doc.None? ==> start.cursor.None?)
            && (goesOn ==> var record := doc.value.resume.value;
                           run.runId == record.runId && run.resume.value.startedAt == record.startedAt && start.token == record.token)
            && (!goesOn ==> run.runId == o.runId && run.resume.value.startedAt == o.startedAt && start.token.None?
                            && run.resume.value.firstObjectSeq.None?)
  {
  }

  /** From one attempt to the next, whatever the first one received and however
      it failed: if it stored its newest checkpoint, the next one of that run
      gives its source exactly that checkpoint's cursor and token, keeps the id
      and the start time, and numbers its files on after those delivered; from
      the first again where the source cannot go on. */
  lemma FailureIsTakenUp(run: SS.Run, stored: Option<SS.Doc>, events: seq<SS.Event>, gate: Option<bool>,
                         late: seq<Delivered>, outcome: bool, o: Options, resumed: Option<bool>)
    requires !SS.Succeeded(gate, outcome) && run.resume.Some?
    requires var n := SS.NewestUpTo(events, SS.FinalFrontier(events, gate, late));
             && n.Some? && n.value.batchSeq > SS.After(run, stored, events).0.lastPersisted
             && (run.withSink || n.value.token.Some?)
    requires MayGoOn(o, run.runId, run.resume.value.configHash) && o.withSink == run.withSink
    ensures var n := SS.NewestUpTo(events, SS.FinalFrontier(events, gate, late)).value;
            var (s, before) := SS.After(run, stored, events);
            var doc := SS.Stored(before, SS.Flush(run, s, gate, late, outcome));
            var next, start := RunOf(doc, o, resumed), GivenTo(doc, o);
            var goesOn := if n.token.Some? then resumed == Some(true) else n.cursor.Some?;
            && start == Given(n.cursor, n.token)
            && next.runId == run.runId && next.resume.Some? && next.resume.value.startedAt == run.resume.value.startedAt
            && (goesOn && run.withSink ==>
                  next.resume.value.firstObjectSeq == Some(FirstNumber(run) + SS.DeliveredAtEnd(events, gate, late).objects))
            && (!goesOn || !run.withSink ==> next.resume.value.firstObjectSeq.None?)
  {
    SS.FailedRunIsContinuable(run, stored, events, gate, late, outcome);
    hide SS.After, SS.Flush, SS.NewestUpTo, SS.DeliveredAtEnd, SS.FinalFrontier;
  }

  /** The number of a run's first file. */
  function FirstNumber(run: SS.Run): nat {
    if run.resume.Some? && run.resume.value.firstObjectSeq.Some? then run.resume.value.firstObjectSeq.value else 1
  }

  // ----- chains of failed attempts ---------------------------------------------------

  /** A failed attempt: how it was started, and the checkpoint and delivered
      files it stored at its end, if it stored any. */
  datatype Attempt = Attempt(options: Options, resumed: Option<bool>, left: Option<(Checkpoint, Delivered)>)

  /** The document after the attempt. */
  ghost predicate LeavesBehind(before: Option<SS.Doc>, a: Attempt, after: Option<SS.Doc>) {
    if a.left.None? then after == before
    else after.Some? && SS.StandsFor(after.value, RunOf(before, a.options, a.resumed), a.left.value.0, a.left.value.1)
  }

  /** Attempts with a sink that start from what the one before left, of a pipeline that did not change. */
  ghost predicate Chain(docs: seq<Option<SS.Doc>>, attempts: seq<Attempt>, configHash: nat) {
    && |docs| == |attempts| + 1
    && (forall k :: 0 <= k < |attempts| ==> LeavesBehind(docs[k], attempts[k], docs[k + 1]) && attempts[k].options.withSink)
    && (forall k :: 0 <= k < |attempts| ==> attempts[k].options.configHash == configHash && attempts[k].options.mayResume)
  }

  /** How many files the attempts that left something delivered. */
  function DeliveredIn(attempts: seq<Attempt>): nat {
    if attempts == [] then 0
    else DeliveredIn(attempts[..|attempts| - 1])
         + if attempts[|attempts| - 1].left.Some? then attempts[|attempts| - 1].left.value.1.objects else 0
  }

  predicate LeftSomething(attempts: seq<Attempt>) { exists k :: 0 <= k < |attempts| && attempts[k].left.Some? }

  /** Every attempt after the first goes on where the one before stopped. */
  ghost predicate AllGoOn(docs: seq<Option<SS.Doc>>, attempts: seq<Attempt>)
    requires |docs| == |attempts| + 1
  {
    forall k :: 0 <= k < |attempts| && docs[k].Some? ==> Continues(docs[k], attempts[k].options, attempts[k].resumed)
  }

  /** The first attempt of the chain that left something. */
  function Founder(attempts: seq<Attempt>): Options
    requires LeftSomething(attempts)
  {
    var before, last := attempts[..|attempts| - 1], attempts[|attempts| - 1];
    LeftOneMore(before, last);
    assert attempts == before + [last];
    if LeftSomething(before) then Founder(before) else last.options
  }

  lemma LeftOneMore(attempts: seq<Attempt>, a: Attempt)
    ensures LeftSomething(attempts + [a]) <==> LeftSomething(attempts) || a.left.Some?
  {
    if LeftSomething(attempts) {
      var k :| 0 <= k < |attempts| && attempts[k].left.Some?;
      assert (attempts + [a])[k] == attempts[k];
    }
    if a.left.Some? { assert (attempts + [a])[|attempts|] == a; }
  }

  /** One more attempt, from what was left so far. */
  lemma AttemptLeaves(before: Option<SS.Doc>, a: Attempt, after: Option<SS.Doc>)
    requires LeavesBehind(before, a, after) && a.options.withSink && a.options.mayResume && a.left.Some?
    requires before.Some? ==>
               && before.value.resume.Some? && before.value.resume.value.nextObjectSeq.Some?
               && before.value.resume.value.configHash == a.options.configHash
               && Continues(before, a.options, a.resumed)
    ensures after.Some? && after.value.resume.Some? && after.value.resume.value.configHash == a.options.configHash
    ensures var record, delivered := after.value.resume.value, a.left.value.1.objects;
            && (before.None? ==>
                  record.runId == a.options.runId && record.startedAt == a.options.startedAt
                  && record.nextObjectSeq == Some(1 + delivered))
            && (before.Some? ==>
                  var was := before.value.resume.value;
                  record.runId == was.runId && record.startedAt == was.startedAt
                  && record.nextObjectSeq == Some(was.nextObjectSeq.value + delivered))
  {
  }

  /** Over any chain of failed attempts from an empty state: the record has the
      id and start time of the first attempt that left something, and its next
      file's number is one more than all the files delivered on the way. */
  lemma {:induction false} ChainKeepsOneRun(docs: seq<Option<SS.Doc>>, attempts: seq<Attempt>, configHash: nat)
    requires Chain(docs, attempts, configHash) && docs[0].None? && AllGoOn(docs, attempts)
    ensures docs[|attempts|].Some? <==> LeftSomething(attempts)
    ensures LeftSomething(attempts) ==>
              && docs[|attempts|].value.resume.Some?
              && var record := docs[|attempts|].value.resume.value;
              && record.runId == Founder(attempts).runId && record.startedAt == Founder(attempts).startedAt
              && record.configHash == configHash
              && record.nextObjectSeq == Some(1 + DeliveredIn(attempts))
    ensures !LeftSomething(attempts) ==> DeliveredIn(attempts) == 0
    decreases |attempts|
  {
    if attempts != [] {
      var n := |attempts| - 1;
      var before, last := attempts[..n], attempts[n];
      ChainBefore(docs, attempts, configHash);
      ChainKeepsOneRun(docs[..n + 1], before, configHash);
      assert docs[..n + 1][n] == docs[n] && attempts == before + [last];
      LeftOneMore(before, last);
      hide LeavesBehind, Continues, Chain, AllGoOn, LeftSomething;
      if last.left.Some? {
        AttemptLeaves(docs[n], last, docs[n + 1]);
      } else {
        NothingLeft(docs[n], last, docs[n + 1]);
      }
    }
  }

  lemma ChainBefore(docs: seq<Option<SS.Doc>>, attempts: seq<Attempt>, configHash: nat)
    requires Chain(docs, attempts, configHash) && docs[0].None? && AllGoOn(docs, attempts) && attempts != []
    ensures var n := |attempts| - 1;
            && Chain(docs[..n + 1], attempts[..n], configHash) && docs[..n + 1][0].None? && AllGoOn(docs[..n + 1], attempts[..n])
            && LeavesBehind(docs[n], attempts[n], docs[n + 1])
            && attempts[n].options.withSink && attempts[n].options.mayResume && attempts[n].options.configHash == configHash
            && (docs[n].Some? ==> Continues(docs[n], attempts[n].options, attempts[n].resumed))
  {
    hide LeavesBehind, Continues;
  }

  lemma NothingLeft(before: Option<SS.Doc>, a: Attempt, after: Option<SS.Doc>)
    requires LeavesBehind(before, a, after) && a.left.None?
    ensures after == before
  {
  }

  // ----- the retry loop ----------------------------------------------------------------

  /** How an attempt ended: well, for a reason that may pass, or for one that
      will not; whether it wrote rows, and whether a halt came by its end or
      during the wait after it. */
  datatype Outcome = Outcome(end: Ending, wroteRows: bool, haltedBy: bool, haltedDuring: bool)
  datatype Ending = Success | Passing | Lasting

  /** Another attempt follows this one. */
  predicate Retries(o: Outcome) { o.end.Passing? && !o.haltedBy && !o.haltedDuring }

  /** How many attempts, this one included, failed in a row without writing. */
  function IdleAfter(outcomes: seq<Outcome>): nat {
    if outcomes == [] then 0
    else if outcomes[|outcomes| - 1].wroteRows then 1
    else IdleAfter(outcomes[..|outcomes| - 1]) + 1
  }

  /** The loop: `next` gives the outcome of the k-th attempt (counted from 1).
      Attempts are made up to the allowed number, and no further than the first
      one that is not to be retried; the result is the last one's. `waits` holds
      how far the wait before each retry has doubled. */
  method RunPipeline(next: nat -> Outcome, allowed: nat) returns (result: Outcome, attempts: nat, waits: seq<nat>)
    ensures 1 <= attempts <= Max(allowed, 1) && result == next(attempts)
    ensures forall k :: 1 <= k < attempts ==> Retries(next(k))
    ensures attempts < Max(allowed, 1) ==> !Retries(result)
    ensures forall k :: 0 <= k < |waits| ==> waits[k] == IdleAfter(seq(k + 1, i requires 0 <= i => next(i + 1)))
    ensures |waits| == if result.end.Passing? && !result.haltedBy && attempts < Max(allowed, 1) then attempts else attempts - 1
  {
    var most, idle := Max(allowed, 1), 0;
    attempts, waits := 1, [];
    while true
      invariant 1 <= attempts <= most && |waits| == attempts - 1
      invariant forall k :: 1 <= k < attempts ==> Retries(next(k))
      invariant idle == IdleAfter(seq(attempts - 1, i requires 0 <= i => next(i + 1)))
      invariant forall k :: 0 <= k < |waits| ==> waits[k] == IdleAfter(seq(k + 1, i requires 0 <= i => next(i + 1)))
      decreases most - attempts
    {
      result := next(attempts);
      if !result.end.Passing? || attempts >= most || result.haltedBy {
        return;
      }
      assert seq(attempts, i requires 0 <= i => next(i + 1))[..attempts - 1] == seq(attempts - 1, i requires 0 <= i => next(i + 1));
      idle := if result.wroteRows then 1 else idle + 1;
      waits := waits + [idle];
      if result.haltedDuring {
        return;
      }
      attempts := attempts + 1;
    }
  }
}
