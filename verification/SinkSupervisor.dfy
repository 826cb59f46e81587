/** The sink stage over its respawns (crates/loadsmith-core/src/sink_supervisor.rs). */
module SinkSupervisor {
  // `run_sink_supervisor` and `drive_instance` as a step system over everything
  // the supervisor may observe: files, acknowledgements, the sink's end, resend
  // requests, halts, failed writes. The log records what was announced, what the
  // sink was told and what it answered.

  import opened Wrappers
  import opened SinkLedger

  const MAX_RESTARTS: nat := 5

  datatype Outcome = Done | Failed | Halted
  datatype Phase = Starting | Driving | Over(outcome: Outcome)
  /** `Asked`: the sink asked for everything unacknowledged once more. */
  datatype Entry = Spawned | Asked | Announced(path: Path) | Sent(path: Path) | Acked(path: Path) | StdinClosed

  datatype State = State(emitted: seq<Path>, delivered: set<Path>, inputClosed: bool, restarts: nat,
                         inputOpen: bool, halting: bool, haltFired: bool, phase: Phase, log: seq<Entry>)

  datatype Input =
    /** An instance comes up (or its set-up fails) and `sent` pending objects are written to it. */
    | Spawn(ready: bool, sent: nat)
    | Object(path: Path, written: bool)
    | NoMoreObjects
    | Ack(path: Path)
    | Finished(success: bool)
    /** Died, hung, or could not be pinged. */
    | Broken
    | Resend(sent: nat)
    /** The run is told to stop, whether or not the loop has looked yet. */
    | HaltFires
    | Halt(noGrace: bool)
    | GraceOver

  const Initial := State([], {}, false, 0, true, false, false, Starting, [])

  function Sends(paths: seq<Path>): (r: seq<Entry>)
    ensures |r| == |paths| && forall i :: 0 <= i < |r| ==> r[i] == Sent(paths[i])
  {
    if paths == [] then [] else [Sent(paths[0])] + Sends(paths[1..])
  }

  predicate AllDelivered(s: State) { forall p :: p in s.emitted ==> p in s.delivered }

  /** A failed instance: respawned, unless the run is halting or it failed too often. */
  function Recover(s: State): State {
    if s.haltFired then s.(phase := Over(Halted))
    else
      var t := s.(restarts := s.restarts + 1);
      if t.restarts > MAX_RESTARTS then t.(phase := Over(Failed)) else t.(phase := Starting)
  }

  /** The top of the drive loop: stdin is closed once nothing is left to deliver. */
  function CloseWhenDone(s: State): State {
    if s.phase.Driving? && s.inputClosed && s.inputOpen && AllDelivered(s) then
      s.(inputOpen := false, log := s.log + [StdinClosed])
    else s
  }

  predicate Enabled(s: State, i: Input) {
    match i
    case Spawn(_, sent) => s.phase.Starting? && sent <= |Pending(s.emitted, s.delivered)|
    case Object(_, _) => s.phase.Driving? && !s.inputClosed
    case NoMoreObjects => s.phase.Driving? && !s.inputClosed
    case Resend(sent) => s.phase.Driving? && sent <= |Pending(s.emitted, s.delivered)|
    case HaltFires => !s.phase.Over?
    case Halt(_) => s.phase.Driving? && s.haltFired && !s.halting
    case GraceOver => s.phase.Driving? && s.halting
    case _ => s.phase.Driving?
  }

  /** Writes the first `sent` pending objects; all of them, or the instance failed. */
  function SendPending(s: State, sent: nat): State
    requires sent <= |Pending(s.emitted, s.delivered)|
  {
    var pending := Pending(s.emitted, s.delivered);
    var t := s.(log := s.log + Sends(pending[..sent]));
    if sent < |pending| then Recover(t) else t
  }

  function React(s: State, i: Input): State
    requires Enabled(s, i)
  {
    match i
    case Spawn(ready, sent) =>
      var t := s.(log := s.log + [Spawned], inputOpen := true, halting := false, phase := Driving);
      if ready then SendPending(t, sent) else t.(phase := Over(Failed))
    case Object(path, written) =>
      if path in s.delivered || path in s.emitted then s
      else
        var t := s.(emitted := s.emitted + [path], log := s.log + [Announced(path)]);
        if s.inputOpen && !s.halting then
          var u := t.(log := t.log + [Sent(path)]);
          if written then u else Recover(u)
        else t
    case NoMoreObjects => s.(inputClosed := true)
    case Ack(path) =>
      var t := s.(delivered := s.delivered + {path}, log := s.log + [Acked(path)]);
      if s.halting then t.(phase := Over(Halted)) else t
    case Finished(success) => if success then s.(phase := Over(Done)) else Recover(s)
    case Broken => Recover(s)
    case Resend(sent) =>
      var t := s.(log := s.log + [Asked]);
      if s.inputOpen then SendPending(t, sent) else t
    case HaltFires => s.(haltFired := true)
    case Halt(noGrace) =>
      if Pending(s.emitted, s.delivered) == [] || noGrace then s.(phase := Over(Halted)) else s.(halting := true)
    case GraceOver => s.(phase := Over(Halted))
  }

  function Next(s: State, i: Input): State
    requires Enabled(s, i)
  {
    CloseWhenDone(React(s, i))
  }

  function Run(s: State, inputs: seq<Input>): Option<State>
    decreases |inputs|
  {
    if inputs == [] then Some(s)
    else if Enabled(s, inputs[0]) then Run(Next(s, inputs[0]), inputs[1..])
    else None
  }

  // ----- the invariant -----------------------------------------------------------

  function Instances(log: seq<Entry>): nat {
    if log == [] then 0
    else Instances(log[..|log| - 1]) + if log[|log| - 1].Spawned? then 1 else 0
  }

  /** Nothing acknowledged is sent afterwards, and the ledger is what was acknowledged. */
  ghost predicate LogOk(log: seq<Entry>, emitted: seq<Path>, delivered: set<Path>) {
    && (forall i, j :: 0 <= i < j < |log| && log[i].Acked? && log[j].Sent? ==> log[i].path != log[j].path)
    && (forall p :: p in delivered <==> Acked(p) in log)
    && (forall i :: 0 <= i < |log| && log[i].Sent? ==> log[i].path in emitted)
  }

  /** Every instance but the running one cost a restart. */
  ghost predicate CountsOk(s: State) {
    && s.restarts <= MAX_RESTARTS + 1
    && (s.restarts == MAX_RESTARTS + 1 ==> s.phase == Over(Failed))
    && Instances(s.log) == s.restarts + (if s.phase.Starting? || s.restarts == MAX_RESTARTS + 1 then 0 else 1)
  }

  ghost predicate Inv(s: State) {
    && LogOk(s.log, s.emitted, s.delivered)
    && CountsOk(s)
    && (s.phase.Driving? ==> (s.inputClosed && AllDelivered(s) <==> !s.inputOpen))
  }

  lemma {:induction false} InstancesConcat(a: seq<Entry>, b: seq<Entry>)
    requires forall i :: 0 <= i < |b| ==> !b[i].Spawned?
    ensures Instances(a + b) == Instances(a)
  {
    if b == [] {
      assert a + b == a;
    } else {
      assert (a + b)[..|a + b| - 1] == a + b[..|b| - 1];
      InstancesConcat(a, b[..|b| - 1]);
    }
  }

  lemma OneMoreEntry(log: seq<Entry>, e: Entry)
    ensures Instances(log + [e]) == Instances(log) + if e.Spawned? then 1 else 0
  {
    assert (log + [e])[..|log|] == log;
  }

  /** Sending only what is pending keeps the log in order. */
  lemma SendsKeepLog(log: seq<Entry>, emitted: seq<Path>, delivered: set<Path>, paths: seq<Path>)
    requires LogOk(log, emitted, delivered) && forall p :: p in paths ==> p in emitted && p !in delivered
    ensures LogOk(log + Sends(paths), emitted, delivered)
  {
    var log' := log + Sends(paths);
    assert forall i :: |log| <= i < |log'| ==> log'[i] == Sent(paths[i - |log|]) && log'[i].path in paths;
    forall i, j | 0 <= i < j < |log'| && log'[i].Acked? && log'[j].Sent?
      ensures log'[i].path != log'[j].path
    {
      assert i < |log|;
      assert log'[i] == log[i] == Acked(log'[i].path) && log'[i].path in delivered;
    }
    assert forall p :: Acked(p) in log' <==> Acked(p) in log;
  }

  lemma AckKeepsLog(log: seq<Entry>, emitted: seq<Path>, delivered: set<Path>, path: Path)
    requires LogOk(log, emitted, delivered)
    ensures LogOk(log + [Acked(path)], emitted, delivered + {path})
  {
    assert forall p :: Acked(p) in log + [Acked(path)] <==> Acked(p) in log || p == path;
  }

  lemma MarkKeepsLog(log: seq<Entry>, emitted: seq<Path>, delivered: set<Path>, e: Entry)
    requires LogOk(log, emitted, delivered) && !e.Acked? && !e.Sent?
    ensures LogOk(log + [e], emitted, delivered)
  {
    assert forall p :: Acked(p) in log + [e] <==> Acked(p) in log;
  }

  lemma NewObjectKeepsLog(log: seq<Entry>, emitted: seq<Path>, delivered: set<Path>, path: Path)
    requires LogOk(log, emitted, delivered) && path !in delivered
    ensures LogOk(log + [Announced(path)], emitted + [path], delivered)
    ensures LogOk(log + [Announced(path)] + [Sent(path)], emitted + [path], delivered)
  {
    MarkKeepsLog(log, emitted + [path], delivered, Announced(path));
    SendsKeepLog(log + [Announced(path)], emitted + [path], delivered, [path]);
    assert Sends([path]) == [Sent(path)];
  }

  lemma ReactKeepsLog(s: State, i: Input)
    requires LogOk(s.log, s.emitted, s.delivered) && Enabled(s, i)
    ensures LogOk(React(s, i).log, React(s, i).emitted, React(s, i).delivered)
  {
    hide LogOk;
    match i {
      case Spawn(ready, sent) =>
        MarkKeepsLog(s.log, s.emitted, s.delivered, Spawned);
        SendsKeepLog(s.log + [Spawned], s.emitted, s.delivered, Pending(s.emitted, s.delivered)[..sent]);
      case Object(path, written) =>
        if path !in s.delivered { NewObjectKeepsLog(s.log, s.emitted, s.delivered, path); }
      case Ack(path) => AckKeepsLog(s.log, s.emitted, s.delivered, path);
      case Resend(sent) =>
        MarkKeepsLog(s.log, s.emitted, s.delivered, Asked);
        SendsKeepLog(s.log + [Asked], s.emitted, s.delivered, Pending(s.emitted, s.delivered)[..sent]);
      case _ =>
    }
  }

  /** Only a spawn adds an instance to the log. */
  lemma ReactAddsInstances(s: State, i: Input)
    requires Enabled(s, i)
    ensures Instances(React(s, i).log) == Instances(s.log) + if i.Spawn? then 1 else 0
  {
    hide Instances, Pending, AllDelivered;
    match i {
      case Spawn(ready, sent) =>
        OneMoreEntry(s.log, Spawned);
        InstancesConcat(s.log + [Spawned], Sends(Pending(s.emitted, s.delivered)[..sent]));
      case Object(path, written) =>
        OneMoreEntry(s.log, Announced(path));
        OneMoreEntry(s.log + [Announced(path)], Sent(path));
      case Ack(path) => OneMoreEntry(s.log, Acked(path));
      case Resend(sent) =>
        OneMoreEntry(s.log, Asked);
        InstancesConcat(s.log + [Asked], Sends(Pending(s.emitted, s.delivered)[..sent]));
      case _ =>
    }
  }

  lemma ReactKeepsCounts(s: State, i: Input)
    requires CountsOk(s) && Enabled(s, i)
    ensures CountsOk(React(s, i))
  {
    hide Instances, Pending, AllDelivered, Sends;
    ReactAddsInstances(s, i);
  }

  /** Once closed, stdin was closed for a reason that stays true. */
  lemma ReactKeepsClosed(s: State, i: Input)
    requires s.phase.Driving? && !s.inputOpen ==> s.inputClosed && AllDelivered(s)
    requires Enabled(s, i)
    ensures var t := React(s, i); t.phase.Driving? && !t.inputOpen ==> t.inputClosed && AllDelivered(t)
  {
    hide Sends;
    match i {
      case Spawn(_, _) =>
      case Object(_, _) =>
      case Resend(_) =>
      case _ => hide Pending;
    }
  }

  lemma StepKeeps(s: State, i: Input)
    requires Inv(s) && Enabled(s, i)
    ensures Inv(Next(s, i))
  {
    hide LogOk, Instances, AllDelivered, React, Pending;
    ReactKeepsLog(s, i);
    ReactKeepsCounts(s, i);
    ReactKeepsClosed(s, i);
    var r := React(s, i);
    OneMoreEntry(r.log, StdinClosed);
    MarkKeepsLog(r.log, r.emitted, r.delivered, StdinClosed);
    CloseWhenDoneChanges(r);
  }

  lemma CloseWhenDoneChanges(r: State)
    ensures AllDelivered(CloseWhenDone(r)) == AllDelivered(r)
  {
  }

  lemma {:induction false} RunKeeps(s: State, inputs: seq<Input>)
    requires Inv(s) && Run(s, inputs).Some?
    ensures Inv(Run(s, inputs).value)
    decreases |inputs|
  {
    hide Inv, Next, Enabled;
    if inputs != [] {
      StepKeeps(s, inputs[0]);
      RunKeeps(Next(s, inputs[0]), inputs[1..]);
    }
  }

  lemma CountsBound(s: State)
    requires CountsOk(s)
    ensures Instances(s.log) <= MAX_RESTARTS + 1
  {
  }

  // ----- what the supervisor promises ----------------------------------------------

  /** Over all respawns: an acknowledged object is never sent again, and at
      most six instances run. */
  lemma NeverResentNeverMoreThanSix(inputs: seq<Input>)
    requires Run(Initial, inputs).Some?
    ensures var log := Run(Initial, inputs).value.log;
            && Instances(log) <= 6
            && forall i, j :: 0 <= i < j < |log| && log[i].Acked? && log[j].Sent? ==> log[i].path != log[j].path
  {
    RunKeeps(Initial, inputs);
    CountsBound(Run(Initial, inputs).value);
  }

  predicate Grown(s: State, t: State) { s.delivered <= t.delivered && s.emitted <= t.emitted && s.log <= t.log }

  lemma ReactOnlyGrows(s: State, i: Input)
    requires Enabled(s, i)
    ensures Grown(s, React(s, i))
  {
    hide Pending, AllDelivered, Sends;
    match i {
      case Spawn(ready, sent) =>
      case Object(path, written) =>
      case Ack(path) =>
      case Resend(sent) =>
      case _ =>
    }
  }

  /** One step adds to the ledger and to the log. */
  lemma StepOnlyGrows(s: State, i: Input)
    requires Enabled(s, i)
    ensures Grown(s, Next(s, i))
  {
    hide React, AllDelivered, Enabled;
    ReactOnlyGrows(s, i);
  }

  /** The ledger survives: what was acknowledged and announced only grows. */
  lemma {:induction false} LedgerOnlyGrows(s: State, inputs: seq<Input>)
    requires Run(s, inputs).Some?
    ensures Grown(s, Run(s, inputs).value)
    decreases |inputs|
  {
    hide Next, Enabled;
    if inputs != [] {
      StepOnlyGrows(s, inputs[0]);
      LedgerOnlyGrows(Next(s, inputs[0]), inputs[1..]);
    }
  }

  // ----- what is sent again, and in which order ----------------------------------------

  /** What a log announced, in order, and what it acknowledged. */
  function AnnouncedIn(log: seq<Entry>): seq<Path> {
    if log == [] then []
    else
      var before := AnnouncedIn(log[..|log| - 1]);
      if log[|log| - 1].Announced? then before + [log[|log| - 1].path] else before
  }

  function AckedIn(log: seq<Entry>): set<Path> {
    if log == [] then {}
    else
      var before := AckedIn(log[..|log| - 1]);
      if log[|log| - 1].Acked? then before + {log[|log| - 1].path} else before
  }

  /** Where everything unacknowledged is sent again. */
  predicate Restarts(e: Entry) { e.Spawned? || e.Asked? }

  /** What was announced and not acknowledged before entry `k`. */
  function PendingAt(log: seq<Entry>, k: nat): seq<Path>
    requires k <= |log|
  {
    Pending(AnnouncedIn(log[..k]), AckedIn(log[..k]))
  }

  /** After entry `k` the first `m` of the then pending objects were sent, in order. */
  predicate Resends(log: seq<Entry>, k: nat, m: nat) {
    && k < |log| && m <= |PendingAt(log, k)| && k + 1 + m <= |log|
    && log[k + 1..k + 1 + m] == Sends(PendingAt(log, k)[..m])
  }

  /** All of them, or the write failed: then another instance is the next to be heard of. */
  ghost predicate ResendsAll(log: seq<Entry>, k: nat, driving: bool) {
    exists m :: Resends(log, k, m)
                && (m == |PendingAt(log, k)|
                    || (if k + 1 + m < |log| then log[k + 1 + m].Spawned? else !driving))
  }

  ghost predicate AllResent(log: seq<Entry>, driving: bool) {
    forall k :: 0 <= k < |log| && Restarts(log[k]) ==> ResendsAll(log, k, driving)
  }

  predicate Distinct(paths: seq<Path>) { forall x, y :: 0 <= x < y < |paths| ==> paths[x] != paths[y] }

  /** `p` was announced before `q`. */
  ghost predicate Precedes(emitted: seq<Path>, p: Path, q: Path) {
    exists x, y :: 0 <= x < y < |emitted| && emitted[x] == p && emitted[y] == q
  }

  /** Between two restarts objects are sent in the order of their announcements. */
  ghost predicate InOrder(log: seq<Entry>, emitted: seq<Path>) {
    forall i, j :: 0 <= i < j < |log| && log[i].Sent? && log[j].Sent? && (forall k :: i < k < j ==> !Restarts(log[k]))
                   ==> Precedes(emitted, log[i].path, log[j].path)
  }

  ghost predicate Resent(s: State) {
    && AnnouncedIn(s.log) == s.emitted && AckedIn(s.log) == s.delivered && Distinct(s.emitted)
    && InOrder(s.log, s.emitted)
    && AllResent(s.log, s.phase.Driving?)
  }

  lemma AnnouncedOneMore(log: seq<Entry>, e: Entry)
    ensures AnnouncedIn(log + [e]) == if e.Announced? then AnnouncedIn(log) + [e.path] else AnnouncedIn(log)
    ensures AckedIn(log + [e]) == if e.Acked? then AckedIn(log) + {e.path} else AckedIn(log)
  {
    assert (log + [e])[..|log|] == log;
  }

  lemma {:induction false} SendsAnnounceNothing(log: seq<Entry>, paths: seq<Path>)
    ensures AnnouncedIn(log + Sends(paths)) == AnnouncedIn(log) && AckedIn(log + Sends(paths)) == AckedIn(log)
    decreases |paths|
  {
    if paths == [] {
      assert log + Sends(paths) == log;
    } else {
      assert log + Sends(paths) == log + [Sent(paths[0])] + Sends(paths[1..]);
      AnnouncedOneMore(log, Sent(paths[0]));
      SendsAnnounceNothing(log + [Sent(paths[0])], paths[1..]);
    }
  }

  /** What stood in a log stands in a longer one. */
  lemma ResendsStay(log: seq<Entry>, more: seq<Entry>, k: nat, m: nat)
    requires Resends(log, k, m)
    ensures Resends(log + more, k, m) && PendingAt(log + more, k) == PendingAt(log, k)
  {
    assert (log + more)[..k] == log[..k];
    assert (log + more)[k + 1..k + 1 + m] == log[k + 1..k + 1 + m];
  }

  /** Entries are added while an instance is driven, or begin with a new one. */
  lemma AllResentStays(log: seq<Entry>, driving: bool, more: seq<Entry>, driving': bool)
    requires AllResent(log, driving) && (driving || (more != [] && more[0].Spawned?))
    ensures forall k :: 0 <= k < |log| && Restarts(log[k]) ==> ResendsAll(log + more, k, driving')
  {
    hide PendingAt, Resends;
    forall k | 0 <= k < |log| && Restarts(log[k]) ensures ResendsAll(log + more, k, driving') {
      assert ResendsAll(log, k, driving);
      var m :| Resends(log, k, m)
               && (m == |PendingAt(log, k)| || (if k + 1 + m < |log| then log[k + 1 + m].Spawned? else !driving));
      assert k + 1 + m <= |log| by { ResendsFits(log, k, m); }
      ResendsStay(log, more, k, m);
      assert k + 1 + m < |log| ==> (log + more)[k + 1 + m] == log[k + 1 + m];
      assert k + 1 + m == |log| && more != [] ==> (log + more)[k + 1 + m] == more[0];
    }
  }

  lemma ResendsFits(log: seq<Entry>, k: nat, m: nat)
    requires Resends(log, k, m)
    ensures k + 1 + m <= |log|
  {
  }

  /** Entries that restart nothing. */
  lemma PlainEntriesKeepResent(log: seq<Entry>, more: seq<Entry>, driving: bool)
    requires AllResent(log, true) && forall i :: 0 <= i < |more| ==> !Restarts(more[i])
    ensures AllResent(log + more, driving)
  {
    hide ResendsAll;
    AllResentStays(log, true, more, driving);
    var log' := log + more;
    forall k | 0 <= k < |log'| && Restarts(log'[k]) ensures ResendsAll(log', k, driving) {
      assert log' == log + more;
    }
  }

  /** A restart, and the pending objects sent after it. */
  lemma RestartKeepsResent(log: seq<Entry>, was: bool, mark: Entry, emitted: seq<Path>, delivered: set<Path>, sent: nat, driving: bool)
    requires AllResent(log, was) && Restarts(mark) && (was || mark.Spawned?)
    requires AnnouncedIn(log) == emitted && AckedIn(log) == delivered && sent <= |Pending(emitted, delivered)|
    requires sent < |Pending(emitted, delivered)| ==> !driving
    ensures AllResent(log + [mark] + Sends(Pending(emitted, delivered)[..sent]), driving)
  {
    var sends := Sends(Pending(emitted, delivered)[..sent]);
    var log' := log + [mark] + sends;
    hide Pending;
    assert log' == log + ([mark] + sends);
    AllResentStays(log, was, [mark] + sends, driving);
    forall k | 0 <= k < |log'| && Restarts(log'[k]) ensures ResendsAll(log', k, driving) {
      if k == |log| {
        assert log'[..k] == log;
        assert log'[k + 1..k + 1 + sent] == sends;
        assert Resends(log', k, sent);
      } else if k < |log| {
        assert log'[k] == log[k];
      }
    }
  }

  /** The order, as entries are added. */
  lemma PlainEntryKeepsOrder(log: seq<Entry>, emitted: seq<Path>, e: Entry)
    requires InOrder(log, emitted) && !e.Sent?
    ensures InOrder(log + [e], emitted)
  {
    hide Precedes;
    var log' := log + [e];
    forall i, j | 0 <= i < j < |log'| && log'[i].Sent? && log'[j].Sent? && (forall k :: i < k < j ==> !Restarts(log'[k]))
      ensures Precedes(emitted, log'[i].path, log'[j].path)
    {
      assert forall k :: i < k < j ==> log'[k] == log[k];
    }
  }

  lemma MoreAnnouncedKeepsOrder(log: seq<Entry>, emitted: seq<Path>, path: Path)
    requires InOrder(log, emitted)
    ensures InOrder(log, emitted + [path])
  {
    forall p, q | Precedes(emitted, p, q) ensures Precedes(emitted + [path], p, q) {
      var x, y :| 0 <= x < y < |emitted| && emitted[x] == p && emitted[y] == q;
      assert (emitted + [path])[x] == p && (emitted + [path])[y] == q;
    }
    hide Precedes;
  }

  lemma NewObjectKeepsOrder(log: seq<Entry>, emitted: seq<Path>, path: Path)
    requires InOrder(log, emitted + [path]) && forall i :: 0 <= i < |log| && log[i].Sent? ==> log[i].path in emitted
    ensures InOrder(log + [Sent(path)], emitted + [path])
  {
    var log' := log + [Sent(path)];
    forall i, j | 0 <= i < j < |log'| && log'[i].Sent? && log'[j].Sent? && (forall k :: i < k < j ==> !Restarts(log'[k]))
      ensures Precedes(emitted + [path], log'[i].path, log'[j].path)
    {
      if j == |log| {
        var x :| 0 <= x < |emitted| && emitted[x] == log[i].path;
        assert (emitted + [path])[x] == log[i].path && (emitted + [path])[|emitted|] == path;
      } else {
        assert forall k :: i < k < j ==> log'[k] == log[k];
      }
    }
  }

  lemma ResendKeepsOrder(log: seq<Entry>, emitted: seq<Path>, delivered: set<Path>, mark: Entry, sent: nat)
    requires InOrder(log, emitted) && Distinct(emitted) && Restarts(mark) && sent <= |Pending(emitted, delivered)|
    ensures InOrder(log + [mark] + Sends(Pending(emitted, delivered)[..sent]), emitted)
  {
    var pending := Pending(emitted, delivered);
    var log' := log + [mark] + Sends(pending[..sent]);
    hide Pending, Precedes;
    forall i, j | 0 <= i < j < |log'| && log'[i].Sent? && log'[j].Sent? && (forall k :: i < k < j ==> !Restarts(log'[k]))
      ensures Precedes(emitted, log'[i].path, log'[j].path)
    {
      if j < |log| {
        assert forall k :: i < k < j ==> log'[k] == log[k];
      } else {
        assert log'[|log|] == mark;
        assert i > |log|;
        PendingPrecedes(emitted, delivered, i - |log| - 1, j - |log| - 1);
      }
    }
  }

  lemma PendingPrecedes(emitted: seq<Path>, delivered: set<Path>, i: nat, j: nat)
    requires i < j < |Pending(emitted, delivered)| && Distinct(emitted)
    ensures Precedes(emitted, Pending(emitted, delivered)[i], Pending(emitted, delivered)[j])
  {
    PendingKeepsOrder(emitted, delivered, i, j);
  }

  lemma ReactKeepsResent(s: State, i: Input)
    requires Resent(s) && Enabled(s, i) && LogOk(s.log, s.emitted, s.delivered)
    requires s.phase.Driving? && !s.inputOpen ==> Pending(s.emitted, s.delivered) == []
    ensures Resent(React(s, i))
  {
    hide InOrder, AllResent, Pending, AllDelivered, LogOk, Sends, SendPending, Recover;
    match i {
      case Spawn(ready, sent) =>
        SendPendingKeeps(s, Spawned, s.(log := s.log + [Spawned], inputOpen := true, halting := false, phase := Driving), sent);
        RestartKeeps(s, Spawned, 0, false);
      case Resend(sent) =>
        SendPendingKeeps(s, Asked, s.(log := s.log + [Asked]), sent);
        if !s.inputOpen { RestartKeeps(s, Asked, 0, true); }
      case Object(path, written) =>
        if path !in s.delivered && path !in s.emitted {
          ObjectKeeps(s, path);
          RecoverChanges(React(s, i));
          RecoverChanges(s.(emitted := s.emitted + [path], log := s.log + [Announced(path)] + [Sent(path)]));
        }
      case Ack(path) =>
        AnnouncedOneMore(s.log, Acked(path));
        PlainEntryKeepsOrder(s.log, s.emitted, Acked(path));
        PlainEntriesKeepResent(s.log, [Acked(path)], React(s, i).phase.Driving?);
      case _ =>
        RecoverChanges(s);
        QuietKeeps(s, React(s, i).phase.Driving?);
    }
  }

  lemma RecoverChanges(s: State)
    ensures var t := Recover(s);
            t == s.(restarts := t.restarts, phase := t.phase) && !t.phase.Driving?
  {
  }

  /** `t`: the state once the restart was noted. */
  lemma SendPendingKeeps(s: State, mark: Entry, t: State, sent: nat)
    requires Resent(s) && Restarts(mark) && sent <= |Pending(s.emitted, s.delivered)| && (s.phase.Driving? || mark.Spawned?)
    requires t == s.(log := s.log + [mark], inputOpen := t.inputOpen, halting := t.halting, phase := Driving)
    ensures Resent(SendPending(t, sent))
  {
    hide InOrder, AllResent, Pending, Recover, Sends;
    var u := t.(log := t.log + Sends(Pending(s.emitted, s.delivered)[..sent]));
    RecoverChanges(u);
    RestartKeeps(s, mark, sent, SendPending(t, sent).phase.Driving?);
  }

  /** An instance that is no longer driven leaves the log as it is. */
  lemma QuietKeeps(s: State, driving: bool)
    requires Resent(s) && (driving ==> s.phase.Driving?)
    ensures AllResent(s.log, driving)
  {
    forall k | 0 <= k < |s.log| && Restarts(s.log[k]) ensures ResendsAll(s.log, k, driving) {
      assert ResendsAll(s.log, k, s.phase.Driving?);
    }
  }

  lemma RestartKeeps(s: State, mark: Entry, sent: nat, driving: bool)
    requires Resent(s) && Restarts(mark) && sent <= |Pending(s.emitted, s.delivered)|
    requires s.phase.Driving? || mark.Spawned?
    ensures var log := s.log + [mark] + Sends(Pending(s.emitted, s.delivered)[..sent]);
            && AnnouncedIn(log) == s.emitted && AckedIn(log) == s.delivered && InOrder(log, s.emitted)
            && ((sent < |Pending(s.emitted, s.delivered)| ==> !driving) ==> AllResent(log, driving))
    ensures sent == 0 ==> s.log + [mark] + Sends(Pending(s.emitted, s.delivered)[..sent]) == s.log + [mark]
  {
    hide InOrder, AllResent, Pending;
    AnnouncedOneMore(s.log, mark);
    SendsAnnounceNothing(s.log + [mark], Pending(s.emitted, s.delivered)[..sent]);
    ResendKeepsOrder(s.log, s.emitted, s.delivered, mark, sent);
    if sent < |Pending(s.emitted, s.delivered)| ==> !driving {
      RestartKeepsResent(s.log, s.phase.Driving?, mark, s.emitted, s.delivered, sent, driving);
    }
  }

  lemma ObjectKeeps(s: State, path: Path)
    requires Resent(s) && s.phase.Driving? && path !in s.emitted && LogOk(s.log, s.emitted, s.delivered)
    ensures var log, emitted := s.log + [Announced(path)], s.emitted + [path];
            && AnnouncedIn(log) == emitted && AckedIn(log) == s.delivered && Distinct(emitted) && InOrder(log, emitted)
            && (forall driving :: AllResent(log, driving))
            && AnnouncedIn(log + [Sent(path)]) == emitted && AckedIn(log + [Sent(path)]) == s.delivered
            && InOrder(log + [Sent(path)], emitted) && (forall driving :: AllResent(log + [Sent(path)], driving))
  {
    var log, emitted := s.log + [Announced(path)], s.emitted + [path];
    AnnouncedOneMore(s.log, Announced(path));
    AnnouncedOneMore(log, Sent(path));
    MoreAnnouncedKeepsOrder(s.log, s.emitted, path);
    PlainEntryKeepsOrder(s.log, emitted, Announced(path));
    SentIsAnnounced(s, path);
    NewObjectKeepsOrder(log, s.emitted, path);
    hide InOrder, AllResent, LogOk;
    forall driving ensures AllResent(log, driving) && AllResent(log + [Sent(path)], driving) {
      PlainEntriesKeepResent(s.log, [Announced(path)], driving);
      PlainEntriesKeepResent(s.log, [Announced(path)], true);
      PlainEntriesKeepResent(log, [Sent(path)], driving);
    }
  }

  lemma SentIsAnnounced(s: State, path: Path)
    requires LogOk(s.log, s.emitted, s.delivered)
    ensures var log := s.log + [Announced(path)]; forall i :: 0 <= i < |log| && log[i].Sent? ==> log[i].path in s.emitted
  {
  }

  lemma NothingPending(s: State)
    ensures AllDelivered(s) ==> Pending(s.emitted, s.delivered) == []
  {
    var p := Pending(s.emitted, s.delivered);
    assert p != [] ==> p[0] in p;
  }

  lemma CloseKeepsResent(s: State)
    requires Resent(s)
    ensures Resent(CloseWhenDone(s))
  {
    hide InOrder, AllResent, AllDelivered;
    AnnouncedOneMore(s.log, StdinClosed);
    PlainEntryKeepsOrder(s.log, s.emitted, StdinClosed);
    if s.phase.Driving? {
      PlainEntriesKeepResent(s.log, [StdinClosed], true);
    }
  }

  lemma {:induction false} RunKeepsResent(s: State, inputs: seq<Input>)
    requires Inv(s) && Resent(s) && Run(s, inputs).Some?
    ensures Resent(Run(s, inputs).value)
    decreases |inputs|
  {
    if inputs != [] {
      assert s.phase.Driving? && !s.inputOpen ==> Pending(s.emitted, s.delivered) == [] by { NothingPending(s); }
      ReactKeepsResent(s, inputs[0]);
      CloseKeepsResent(React(s, inputs[0]));
      StepKeeps(s, inputs[0]);
      hide Inv, Enabled, Resent, React, CloseWhenDone;
      RunKeepsResent(Next(s, inputs[0]), inputs[1..]);
    }
  }

  /** Over any run, whatever fails: where an instance comes up, and where one
      asks for it, everything announced and not acknowledged by then is sent
      first and in announcement order, all of it unless a write fails and the
      instance with it; and from there to the next such point no object is sent
      before one announced earlier, nor twice. */
  lemma RespawnResendsInOrder(inputs: seq<Input>)
    requires Run(Initial, inputs).Some?
    ensures var s := Run(Initial, inputs).value;
            && AnnouncedIn(s.log) == s.emitted && Distinct(s.emitted)
            && InOrder(s.log, s.emitted) && AllResent(s.log, s.phase.Driving?)
  {
    assert AnnouncedIn([]) == [] && AckedIn([]) == {};
    RunKeepsResent(Initial, inputs);
  }

  /** The sink's success ends the stage; every announced object was then
      acknowledged, and no more can arrive, exactly when its stdin was closed. */
  lemma DoneIsCompleteIffStdinClosed(inputs: seq<Input>)
    requires Run(Initial, inputs).Some? && Enabled(Run(Initial, inputs).value, Finished(true))
    ensures var s := Run(Initial, inputs).value;
            var t := Next(s, Finished(true));
            t.phase == Over(Done) && (t.inputClosed && AllDelivered(t) <==> !s.inputOpen)
  {
    RunKeeps(Initial, inputs);
  }

  /** No more files can come, and every one announced was acknowledged. */
  predicate Complete(s: State) { s.inputClosed && AllDelivered(s) }

  /** Sinks that report success only after their input ended, as the kit's do
      (`Sink.DriveSink`). */
  predicate SuccessOnlyAfterEnd(s: State, inputs: seq<Input>)
    requires Run(s, inputs).Some?
    decreases |inputs|
  {
    inputs == []
    || ((inputs[0] == Finished(true) ==> !s.inputOpen) && SuccessOnlyAfterEnd(Next(s, inputs[0]), inputs[1..]))
  }

  lemma StepToDoneIsComplete(s: State, i: Input)
    requires Inv(s) && Enabled(s, i) && (i == Finished(true) ==> !s.inputOpen)
    ensures Next(s, i).phase == Over(Done) ==> Complete(Next(s, i))
  {
    hide LogOk, CountsOk, Sends, Pending;
    match i {
      case Spawn(ready, sent) =>
      case Object(path, written) =>
      case Finished(success) =>
      case Resend(sent) =>
      case _ =>
    }
  }

  lemma {:induction false} RunToDoneIsComplete(s: State, inputs: seq<Input>)
    requires Inv(s) && Run(s, inputs).Some? && SuccessOnlyAfterEnd(s, inputs)
    requires s.phase == Over(Done) ==> Complete(s)
    ensures Run(s, inputs).value.phase == Over(Done) ==> Complete(Run(s, inputs).value)
    decreases |inputs|
  {
    hide Inv, Next, Enabled, Complete;
    if inputs != [] {
      StepKeeps(s, inputs[0]);
      StepToDoneIsComplete(s, inputs[0]);
      RunToDoneIsComplete(Next(s, inputs[0]), inputs[1..]);
    }
  }

  /** With such sinks a stage that ends well delivered everything, over any
      number of respawns. */
  lemma DoneIsComplete(inputs: seq<Input>)
    requires Run(Initial, inputs).Some? && SuccessOnlyAfterEnd(Initial, inputs)
    ensures Run(Initial, inputs).value.phase == Over(Done) ==> Complete(Run(Initial, inputs).value)
  {
    RunToDoneIsComplete(Initial, inputs);
  }

  /** A sink that reports success early is believed. */
  lemma EarlySuccessIsBelieved()
    ensures var run := Run(Initial, [Spawn(true, 0), Object(1, true), Finished(true)]);
            run.Some? && run.value.phase == Over(Done) && !AllDelivered(run.value)
  {
    var s1 := Next(Initial, Spawn(true, 0));
    var s2 := Next(s1, Object(1, true));
    assert s2.emitted == [1] && s2.delivered == {};
    var s3 := Next(s2, Finished(true));
    assert 1 in s3.emitted;
    assert Run(s3, []) == Some(s3);
    assert [Finished(true)][1..] == [];
    assert [Object(1, true), Finished(true)][1..] == [Finished(true)];
    assert [Spawn(true, 0), Object(1, true), Finished(true)][1..] == [Object(1, true), Finished(true)];
  }

  // ----- who is respawned, and how the stage ends -----------------------------------------

  /** The instance fails on this input: it breaks or reports a failure, or
      something it should be sent cannot be written. */
  predicate Breaks(s: State, i: Input) {
    match i
    case Spawn(ready, sent) => ready && sent < |Pending(s.emitted, s.delivered)|
    case Object(path, written) =>
      !written && path !in s.emitted && path !in s.delivered && s.inputOpen && !s.halting
    case Resend(sent) => s.inputOpen && sent < |Pending(s.emitted, s.delivered)|
    case Finished(success) => !success
    case Broken => true
    case _ => false
  }

  /** A halt ends the stage: at once without anything to wait for, or when the
      delivery in flight was acknowledged or took too long. */
  predicate HaltEnds(s: State, i: Input) {
    match i
    case Halt(noGrace) => noGrace || Pending(s.emitted, s.delivered) == []
    case Ack(_) => s.halting
    case GraceOver => true
    case _ => false
  }

  predicate SetUpFails(i: Input) { i.Spawn? && !i.ready }

  /** Closing stdin is all the top of the loop does. */
  lemma Closes(r: State)
    ensures var t := CloseWhenDone(r);
            && t == r.(inputOpen := t.inputOpen, log := t.log)
            && (t.log == r.log || t.log == r.log + [StdinClosed])
  {
  }

  /** A failed instance, by how often that happened and whether to stop. */
  lemma Recovers(s: State)
    ensures var t := Recover(s);
            && t == s.(restarts := t.restarts, phase := t.phase)
            && (s.haltFired ==> t.phase == Over(Halted) && t.restarts == s.restarts)
            && (!s.haltFired ==> t.phase == (if s.restarts < MAX_RESTARTS then Starting else Over(Failed)) && t.restarts == s.restarts + 1)
  {
  }

  /** What a step does but for the log. */
  lemma ReactIs(s: State, i: Input)
    requires Enabled(s, i)
    ensures var t := React(s, i);
            && (Breaks(s, i) ==> t.phase == Recover(s).phase)
            && (!Breaks(s, i) ==>
                  t.phase == (if SetUpFails(i) then Over(Failed) else if HaltEnds(s, i) then Over(Halted)
                              else if i == Finished(true) then Over(Done) else if i.Spawn? then Driving else s.phase))
            && t.emitted == (if i.Object? && i.path !in s.emitted && i.path !in s.delivered then s.emitted + [i.path] else s.emitted)
            && t.delivered == (if i.Ack? then s.delivered + {i.path} else s.delivered)
            && (t.inputClosed <==> s.inputClosed || i == NoMoreObjects)
            && (t.haltFired <==> s.haltFired || i == HaltFires)
            && (t.halting <==> (s.halting && !i.Spawn?) || (i == Halt(false) && !HaltEnds(s, i)))
            && (t.inputOpen <==> s.inputOpen || i.Spawn?)
  {
    hide Pending, AllDelivered, Sends, Recover;
    match i {
      case Spawn(_, sent) => Recovers(SpawnedAnd(s, sent)); Recovers(s);
      case Object(path, _) =>
        Recovers(s);
        Recovers(s.(emitted := s.emitted + [path], log := s.log + [Announced(path)] + [Sent(path)]));
      case Resend(sent) =>
        Recovers(s);
        Recovers(s.(log := s.log + [Asked] + Sends(Pending(s.emitted, s.delivered)[..sent])));
      case Finished(_) => Recovers(s);
      case Broken => Recovers(s);
      case _ =>
    }
  }

  function SpawnedAnd(s: State, sent: nat): State
    requires sent <= |Pending(s.emitted, s.delivered)|
  {
    s.(log := s.log + [Spawned] + Sends(Pending(s.emitted, s.delivered)[..sent]), inputOpen := true, halting := false, phase := Driving)
  }

  lemma HowAStepEnds(s: State, i: Input)
    requires Enabled(s, i) && CountsOk(s)
    ensures var t := Next(s, i);
            && (t.phase == Over(Failed) <==> SetUpFails(i) || (Breaks(s, i) && !s.haltFired && Instances(t.log) == MAX_RESTARTS + 1))
            && (t.phase == Over(Halted) <==> HaltEnds(s, i) || (Breaks(s, i) && s.haltFired))
            && (t.phase == Over(Done) <==> i == Finished(true))
            && (t.phase.Starting? <==>
                  (s.phase.Starting? && i.HaltFires?) || (Breaks(s, i) && !s.haltFired && Instances(t.log) <= MAX_RESTARTS))
  {
    OneMoreEntry(React(s, i).log, StdinClosed);
    ReactAddsInstances(s, i);
    ReactIs(s, i);
    Recovers(s);
    Closes(React(s, i));
    hide Pending, AllDelivered, Instances, Sends, React, Recover, CloseWhenDone;
  }

  lemma {:induction false} RunOneMore(s: State, inputs: seq<Input>, i: Input)
    ensures Run(s, inputs + [i])
            == if Run(s, inputs).Some? && Enabled(Run(s, inputs).value, i) then Some(Next(Run(s, inputs).value, i)) else None
    decreases |inputs|
  {
    hide Next, Enabled;
    if inputs == [] {
      assert [i][1..] == [];
      assert inputs + [i] == [i];
      if Enabled(s, i) { assert Run(Next(s, i), []) == Some(Next(s, i)); }
    } else {
      assert (inputs + [i])[1..] == inputs[1..] + [i];
      if Enabled(s, inputs[0]) { RunOneMore(Next(s, inputs[0]), inputs[1..], i); }
    }
  }

  /** How a stage ends, over every run: it fails exactly when an instance's
      set-up failed, or the sixth instance failed and nothing told the run to
      stop; it is halted exactly by a halt, or by an instance's failure after
      one; it is done exactly at a sink's success. A new instance is due
      exactly at first and after every other failure. */
  lemma HowTheStageEnds(inputs: seq<Input>, last: Input)
    requires Run(Initial, inputs + [last]).Some?
    ensures Run(Initial, inputs).Some?
    ensures var s, t := Run(Initial, inputs).value, Run(Initial, inputs + [last]).value;
            && Enabled(s, last) && t == Next(s, last)
            && (t.phase == Over(Failed) <==>
                  SetUpFails(last) || (Breaks(s, last) && HaltFires !in inputs && Instances(t.log) == 6))
            && (t.phase == Over(Halted) <==> HaltEnds(s, last) || (Breaks(s, last) && HaltFires in inputs))
            && (t.phase == Over(Done) <==> last == Finished(true))
            && (t.phase.Starting? <==>
                  (s.phase.Starting? && last.HaltFires?) || (Breaks(s, last) && HaltFires !in inputs && Instances(t.log) < 6))
  {
    RunOneMore(Initial, inputs, last);
    RunKeeps(Initial, inputs);
    RunHears(inputs);
    HowAStepEnds(Run(Initial, inputs).value, last);
    hide Next, Enabled, Breaks, HaltEnds, Instances, LogOk;
  }

  /** After a failure that does not end the stage nothing of the ledger is lost,
      and the next instance may be sent everything pending. */
  lemma FailureKeepsTheLedger(s: State, i: Input)
    requires Enabled(s, i) && CountsOk(s) && Breaks(s, i) && Next(s, i).phase.Starting?
    ensures var t := Next(s, i);
            var pending := Pending(t.emitted, t.delivered);
            && s.emitted <= t.emitted && t.delivered == s.delivered && t.inputClosed == s.inputClosed
            && (forall p :: p in s.emitted && p !in s.delivered ==> p in pending)
            && Enabled(t, Spawn(true, |pending|))
            && var u := Next(t, Spawn(true, |pending|));
            && u.phase.Driving? && t.log + [Spawned] + Sends(pending) <= u.log
  {
    var t := Next(s, i);
    ReactIs(s, i);
    Closes(React(s, i));
    StepOnlyGrows(s, i);
    SpawnSendsAll(t);
    hide AllDelivered, Instances, Sends, React, CloseWhenDone, Next;
  }

  lemma SpawnSendsAll(t: State)
    requires t.phase.Starting?
    ensures var pending := Pending(t.emitted, t.delivered);
            && Enabled(t, Spawn(true, |pending|))
            && var u := Next(t, Spawn(true, |pending|));
            && u.phase.Driving? && t.log + [Spawned] + Sends(pending) <= u.log
  {
    var pending := Pending(t.emitted, t.delivered);
    assert pending[..|pending|] == pending;
    hide Pending, AllDelivered, Sends;
  }

  /** A sink that asks while its stdin is open may be sent everything pending,
      and goes on. */
  lemma ResendMaySendAll(s: State)
    requires s.phase.Driving? && s.inputOpen
    ensures var pending := Pending(s.emitted, s.delivered);
            && Enabled(s, Resend(|pending|))
            && var u := Next(s, Resend(|pending|));
            && u.phase.Driving? && u.restarts == s.restarts && s.log + [Asked] + Sends(pending) <= u.log
  {
    var pending := Pending(s.emitted, s.delivered);
    assert pending[..|pending|] == pending;
    hide Pending, AllDelivered, Sends;
  }

  /** What a stage heard: the files in the order they first came, what was
      acknowledged, whether more may come, and whether it is to stop. */
  function FilesIn(inputs: seq<Input>): seq<Path> {
    if inputs == [] then []
    else
      var before, i := FilesIn(inputs[..|inputs| - 1]), inputs[|inputs| - 1];
      if i.Object? && i.path !in before && Ack(i.path) !in inputs then before + [i.path] else before
  }

  /** Nothing the stage is told is lost over any number of respawns. */
  lemma {:induction false} RunHears(inputs: seq<Input>)
    requires Run(Initial, inputs).Some?
    ensures var s := Run(Initial, inputs).value;
            && s.emitted == FilesIn(inputs)
            && (forall p :: p in s.delivered <==> Ack(p) in inputs)
            && (s.inputClosed <==> NoMoreObjects in inputs)
            && (s.haltFired <==> HaltFires in inputs)
            && (s.halting && s.phase.Driving? ==> Halt(false) in inputs && s.haltFired)
  {
    if inputs != [] {
      var rest, i := inputs[..|inputs| - 1], inputs[|inputs| - 1];
      assert inputs == rest + [i];
      RunOneMore(Initial, rest, i);
      RunHears(rest);
      assert forall x :: x in inputs <==> x in rest || x == i;
      StepHears(Run(Initial, rest).value, i);
      hide Next, Enabled, Run;
    }
  }

  lemma StepHears(s: State, i: Input)
    requires Enabled(s, i)
    ensures var t := Next(s, i);
            && t.emitted == (if i.Object? && i.path !in s.emitted && i.path !in s.delivered then s.emitted + [i.path] else s.emitted)
            && t.delivered == (if i.Ack? then s.delivered + {i.path} else s.delivered)
            && (t.inputClosed <==> s.inputClosed || i == NoMoreObjects)
            && (t.haltFired <==> s.haltFired || i == HaltFires)
            && (t.halting && t.phase.Driving? ==> (s.phase.Driving? && s.halting) || (i == Halt(false) && s.haltFired))
  {
    ReactIs(s, i);
    Recovers(s);
    Closes(React(s, i));
    hide Pending, AllDelivered, Sends, React, CloseWhenDone;
  }

  /** `p` was sent to the instance that came up last. */
  ghost predicate SentToThisOne(log: seq<Entry>, p: Path) {
    exists k :: 0 <= k < |log| && log[k] == Sent(p) && forall j :: k < j < |log| ==> !log[j].Spawned?
  }

  /** What is announced and not acknowledged is with the running instance. */
  ghost predicate AllHandedOver(s: State) {
    s.phase.Driving? && !s.halting ==> forall p :: p in s.emitted && p !in s.delivered ==> SentToThisOne(s.log, p)
  }

  lemma SentStays(log: seq<Entry>, more: seq<Entry>, p: Path)
    requires SentToThisOne(log, p) && forall j :: 0 <= j < |more| ==> !more[j].Spawned?
    ensures SentToThisOne(log + more, p)
  {
    var k :| 0 <= k < |log| && log[k] == Sent(p) && forall j :: k < j < |log| ==> !log[j].Spawned?;
    assert (log + more)[k] == Sent(p);
  }

  lemma PendingIsSent(log: seq<Entry>, emitted: seq<Path>, delivered: set<Path>, p: Path)
    requires p in emitted && p !in delivered
    ensures SentToThisOne(log + Sends(Pending(emitted, delivered)), p)
  {
    var pending := Pending(emitted, delivered);
    assert p in pending;
    var i :| 0 <= i < |pending| && pending[i] == p;
    assert (log + Sends(pending))[|log| + i] == Sent(p);
  }

  lemma ReactHandsOver(s: State, i: Input)
    requires Enabled(s, i) && AllHandedOver(s)
    requires s.phase.Driving? && !s.inputOpen ==> s.inputClosed
    ensures AllHandedOver(React(s, i))
  {
    var t := React(s, i);
    if t.phase.Driving? && !t.halting {
      forall p | p in t.emitted && p !in t.delivered ensures SentToThisOne(t.log, p) {
        HandedOver(s, i, p);
      }
    }
  }

  /** What a step adds to the log while the instance lasts. */
  function Added(s: State, i: Input): seq<Entry> {
    match i
    case Spawn(_, _) => [Spawned] + Sends(Pending(s.emitted, s.delivered))
    case Object(path, _) =>
      if path in s.delivered || path in s.emitted then []
      else if s.inputOpen && !s.halting then [Announced(path)] + [Sent(path)]
      else [Announced(path)]
    case Ack(path) => [Acked(path)]
    case Resend(_) => if s.inputOpen then [Asked] + Sends(Pending(s.emitted, s.delivered)) else [Asked]
    case _ => []
  }

  lemma ReactLogs(s: State, i: Input)
    requires Enabled(s, i) && React(s, i).phase.Driving?
    ensures React(s, i).log == s.log + Added(s, i)
  {
    assert s.log + [] == s.log;
    match i {
      case Spawn(_, _) => SpawnLogs(s, i);
      case Resend(_) => ResendLogs(s, i);
      case Object(_, _) => ObjectLogs(s, i);
      case Ack(_) =>
      case _ => Recovers(s);
    }
    hide Pending, AllDelivered, Sends, SendPending, Recover;
  }

  lemma SpawnLogs(s: State, i: Input)
    requires Enabled(s, i) && i.Spawn? && React(s, i).phase.Driving?
    ensures React(s, i).log == s.log + Added(s, i)
  {
    AllSent(s.(log := s.log + [Spawned], inputOpen := true, halting := false, phase := Driving), i.sent);
    hide Pending, AllDelivered, Sends, SendPending, Recover;
  }

  lemma ResendLogs(s: State, i: Input)
    requires Enabled(s, i) && i.Resend? && React(s, i).phase.Driving?
    ensures React(s, i).log == s.log + Added(s, i)
  {
    if s.inputOpen { AllSent(s.(log := s.log + [Asked]), i.sent); }
    hide Pending, AllDelivered, Sends, SendPending, Recover;
  }

  lemma ObjectLogs(s: State, i: Input)
    requires Enabled(s, i) && i.Object? && React(s, i).phase.Driving?
    ensures React(s, i).log == s.log + Added(s, i)
  {
    Recovers(s.(emitted := s.emitted + [i.path], log := s.log + [Announced(i.path)] + [Sent(i.path)]));
    hide Recover, AllDelivered, Pending;
  }

  lemma AllSent(t: State, sent: nat)
    requires sent <= |Pending(t.emitted, t.delivered)| && SendPending(t, sent).phase.Driving?
    ensures SendPending(t, sent).log == t.log + Sends(Pending(t.emitted, t.delivered))
  {
    var pending := Pending(t.emitted, t.delivered);
    assert pending[..|pending|] == pending;
    Recovers(t.(log := t.log + Sends(pending[..sent])));
    hide Pending, Sends, Recover;
  }

  lemma HandedOver(s: State, i: Input, p: Path)
    requires Enabled(s, i) && AllHandedOver(s) && (s.phase.Driving? && !s.inputOpen ==> s.inputClosed)
    requires var t := React(s, i); t.phase.Driving? && !t.halting && p in t.emitted && p !in t.delivered
    ensures SentToThisOne(React(s, i).log, p)
  {
    ReactIs(s, i);
    ReactLogs(s, i);
    Recovers(s);
    hide React, Recover, AllDelivered, SentToThisOne, Pending;
    if i.Spawn? {
      hide Enabled;
      var sends := Sends(Pending(s.emitted, s.delivered));
      assert s.log + [Spawned] + sends == s.log + ([Spawned] + sends);
      PendingIsSent(s.log + [Spawned], s.emitted, s.delivered, p);
    } else if i.Object? && i.path == p && p !in s.emitted {
      assert s.log + [Announced(p)] + [Sent(p)] == s.log + ([Announced(p)] + [Sent(p)]);
      LastIsSent(s.log + [Announced(p)], p);
    } else {
      assert SentToThisOne(s.log, p);
      SentStays(s.log, Added(s, i), p);
    }
  }

  lemma LastIsSent(log: seq<Entry>, p: Path)
    ensures SentToThisOne(log + [Sent(p)], p)
  {
    assert (log + [Sent(p)])[|log|] == Sent(p);
  }

  lemma CloseHandsOver(s: State)
    requires AllHandedOver(s)
    ensures AllHandedOver(CloseWhenDone(s))
  {
    hide SentToThisOne, AllDelivered;
    forall p | SentToThisOne(s.log, p) ensures SentToThisOne(s.log + [StdinClosed], p) {
      SentStays(s.log, [StdinClosed], p);
    }
  }

  lemma {:induction false} RunHandsOver(s: State, inputs: seq<Input>)
    requires Inv(s) && AllHandedOver(s) && Run(s, inputs).Some?
    ensures AllHandedOver(Run(s, inputs).value)
    decreases |inputs|
  {
    if inputs != [] {
      ReactHandsOver(s, inputs[0]);
      CloseHandsOver(React(s, inputs[0]));
      StepKeeps(s, inputs[0]);
      hide Inv, AllHandedOver, React, Enabled, CloseWhenDone;
      RunHandsOver(Next(s, inputs[0]), inputs[1..]);
    }
  }

  /** At every moment a sink runs and is not being halted, whatever was
      announced and is not acknowledged was sent to that very instance. */
  lemma NothingIsForgotten(inputs: seq<Input>, p: Path)
    requires Run(Initial, inputs).Some?
    requires var s := Run(Initial, inputs).value; s.phase.Driving? && !s.halting
    requires p in FilesIn(inputs) && Ack(p) !in inputs
    ensures SentToThisOne(Run(Initial, inputs).value.log, p)
  {
    RunHandsOver(Initial, inputs);
    RunHears(inputs);
  }

  lemma HaltingStep(s: State, i: Input)
    requires Enabled(s, i) && s.phase.Driving? && s.halting && s.haltFired && !i.Resend?
    ensures var t := Next(s, i);
            && t.haltFired && !t.phase.Starting? && t.phase != Over(Failed) && (t.phase.Driving? ==> t.halting)
            && s.log <= t.log && forall k :: |s.log| <= k < |t.log| ==> !t.log[k].Sent? && !t.log[k].Spawned?
  {
    hide Pending, AllDelivered, Sends;
  }

  /** A sink that is being halted is sent no new object and not respawned. */
  lemma {:induction false} HaltingSendsNothingNew(s: State, inputs: seq<Input>)
    requires s.haltFired && s.phase != Over(Failed) && !s.phase.Starting? && (s.phase.Driving? ==> s.halting)
    requires Run(s, inputs).Some? && forall k :: 0 <= k < |inputs| ==> !inputs[k].Resend?
    ensures var t := Run(s, inputs).value;
            && t.phase != Over(Failed) && !t.phase.Starting?
            && s.log <= t.log && forall k :: |s.log| <= k < |t.log| ==> !t.log[k].Sent? && !t.log[k].Spawned?
    decreases |inputs|
  {
    if inputs != [] {
      var n := Next(s, inputs[0]);
      if s.phase.Driving? { HaltingStep(s, inputs[0]); }
      hide Next;
      HaltingSendsNothingNew(n, inputs[1..]);
    }
  }

  /** A sink that breaks as often as it comes up. */
  function Crashes(n: nat): seq<Input> {
    if n == 0 then [] else Crashes(n - 1) + [Spawn(true, 0)] + [Broken]
  }

  lemma {:induction false} CrashesRespawn(n: nat)
    requires n <= MAX_RESTARTS + 1
    ensures Run(Initial, Crashes(n)).Some?
    ensures var s := Run(Initial, Crashes(n)).value;
            && s == Initial.(restarts := n, log := s.log, phase := s.phase)
            && s.phase == (if n <= MAX_RESTARTS then Starting else Over(Failed)) && Instances(s.log) == n
  {
    if n > 0 {
      CrashesRespawn(n - 1);
      var s := Run(Initial, Crashes(n - 1)).value;
      assert Enabled(s, Spawn(true, 0));
      RunOneMore(Initial, Crashes(n - 1), Spawn(true, 0));
      var u := Next(s, Spawn(true, 0));
      assert Pending([], {}) == [];
      assert u.log == s.log + [Spawned] + Sends([]) == s.log + [Spawned];
      OneMoreEntry(s.log, Spawned);
      RunOneMore(Initial, Crashes(n - 1) + [Spawn(true, 0)], Broken);
    }
  }

  /** The bound is reached: five failures bring up a sixth instance, whose
      failure ends the stage. */
  lemma SixInstancesRun()
    ensures var run := Run(Initial, Crashes(6));
            run.Some? && Instances(run.value.log) == 6 && run.value.phase == Over(Failed)
    ensures var run := Run(Initial, Crashes(5));
            run.Some? && Instances(run.value.log) == 5 && run.value.phase.Starting?
  {
    CrashesRespawn(5);
    CrashesRespawn(6);
  }
}
