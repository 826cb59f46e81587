/**
 The durability-gated watermark and the resume record
 (crates/loadsmith-core/src/state_supervisor.rs).

 The supervisor pairs the source's checkpoints with a durable frontier (the
 destination's commits, or the sink's delivered prefix) and stores the highest
 checkpoint at or below it, throttled while the run goes on and once at its
 end.
 */
module StateSupervisor {
  import opened Wrappers
  import opened Source
  import opened SinkLedger

  datatype ResumeRecord = ResumeRecord(runId: nat, startedAt: nat, configHash: nat,
                                       nextObjectSeq: Option<nat>, token: Option<Token>)
  /** The stored document: what the next run starts from. */
  datatype Doc = Doc(cursor: Option<Cursor>, runId: nat, resume: Option<ResumeRecord>)
  datatype Identity = Identity(startedAt: nat, configHash: nat, firstObjectSeq: Option<nat>)
  datatype Run = Run(runId: nat, interval: nat, resume: Option<Identity>, prior: Option<Doc>, withSink: bool)

  /** What the supervisor knows. `at` holds the last checkpoint received per batch. */
  datatype State = State(at: map<nat, Checkpoint>, durable: nat, delivered: Delivered,
                         lastPersisted: nat, recordWritten: bool)
  /** The next state, and the document stored on the way. */
  datatype Act = Act(state: State, store: Option<Doc>)

  datatype Event = Reported(checkpoint: Checkpoint) | Committed(through: nat) | Prefix(delivered: Delivered)

  const Fresh := State(map[], 0, Delivered(0, 0), 0, false)

  /** The highest batch with a checkpoint at or below the frontier. */
  function SafeBatch(at: map<nat, Checkpoint>, frontier: nat): (b: Option<nat>)
    ensures b.None? ==> forall k :: k in at ==> frontier < k
    ensures b.Some? ==> b.value in at && b.value <= frontier && forall k :: k in at && k <= frontier ==> k <= b.value
  {
    if frontier in at then Some(frontier)
    else if frontier == 0 then None
    else SafeBatch(at, frontier - 1)
  }

  /** The latest checkpoint at or below the frontier. */
  function SafeCheckpoint(at: map<nat, Checkpoint>, frontier: nat): Option<Checkpoint> {
    var b := SafeBatch(at, frontier);
    if b.Some? then Some(at[b.value]) else None
  }

  function RecordFor(run: Run, c: Checkpoint, delivered: Option<Delivered>): Option<ResumeRecord> {
    if run.resume.None? then None
    else
      var id := run.resume.value;
      var next :=
        if delivered.None? then None
        else Some((if id.firstObjectSeq.Some? then id.firstObjectSeq.value else 1) + delivered.value.objects);
      if next.None? && c.token.None? then None
      else Some(ResumeRecord(run.runId, id.startedAt, id.configHash, next, c.token))
  }

  /** With a sink, how far it delivered; nothing without one. */
  function SinkProgress(run: Run, s: State): Option<Delivered> {
    if run.withSink then Some(s.delivered) else None
  }

  function Frontier(run: Run, s: State): nat {
    if run.withSink then s.delivered.through else s.durable
  }

  /** The throttled persist of the event loop. */
  function MaybePersist(run: Run, s: State): Act {
    var c := SafeCheckpoint(s.at, Frontier(run, s));
    if run.interval > 0 && c.Some? && c.value.batchSeq >= s.lastPersisted + run.interval then
      var record := RecordFor(run, c.value, SinkProgress(run, s));
      Act(s.(lastPersisted := c.value.batchSeq, recordWritten := s.recordWritten || record.Some?),
          Some(Doc(c.value.cursor, run.runId, record)))
    else Act(s, None)
  }

  function Further(a: Delivered, b: Delivered): Delivered {
    if b.through > a.through then b else a
  }

  function Absorb(s: State, e: Event): State {
    match e
    case Reported(c) => s.(at := s.at[c.batchSeq := c])
    case Committed(n) => s.(durable := Max(s.durable, n))
    case Prefix(d) => s.(delivered := Further(s.delivered, d))
  }

  function OnEvent(run: Run, s: State, e: Event): Act {
    MaybePersist(run, Absorb(s, e))
  }

  /** The prefix after the reports still queued when the sink exited. */
  function Drain(d: Delivered, late: seq<Delivered>): Delivered
    decreases |late|
  {
    if late == [] then d else Drain(Further(d, late[0]), late[1..])
  }

  /** The end of the run. `gate` answers for the sink (`None` without one),
      `outcome` for the other plugins. */
  function Flush(run: Run, s: State, gate: Option<bool>, late: seq<Delivered>, outcome: bool): Act {
    var delivered := if gate.Some? then Drain(s.delivered, late) else s.delivered;
    var t := s.(delivered := delivered);
    var allDelivered := gate.None? || gate.value;
    var c := SafeCheckpoint(t.at, if allDelivered then t.durable else delivered.through);
    var succeeded := allDelivered && outcome;
    var hadRecord := t.recordWritten || (run.prior.Some? && run.prior.value.resume.Some?);
    if c.Some? && (c.value.batchSeq > t.lastPersisted || (succeeded && hadRecord)) then
      var record := if succeeded then None else RecordFor(run, c.value, SinkProgress(run, t));
      Act(t.(lastPersisted := c.value.batchSeq), Some(Doc(c.value.cursor, run.runId, record)))
    else if c.None? && succeeded && hadRecord && run.prior.Some? then
      Act(t, Some(Doc(run.prior.value.cursor, run.runId, None)))
    else Act(t, None)
  }

  /** What is stored after an act. */
  function Stored(before: Option<Doc>, act: Act): Option<Doc> {
    if act.store.Some? then act.store else before
  }

  /** State and document after a sequence of events. */
  function After(run: Run, stored: Option<Doc>, events: seq<Event>): (State, Option<Doc>) {
    if events == [] then (Fresh, stored)
    else
      var (s, doc) := After(run, stored, events[..|events| - 1]);
      var act := OnEvent(run, s, events[|events| - 1]);
      (act.state, Stored(doc, act))
  }

  lemma AfterOneMore(run: Run, stored: Option<Doc>, events: seq<Event>, e: Event)
    ensures After(run, stored, events + [e])
            == (var (s, doc) := After(run, stored, events);
                var act := OnEvent(run, s, e);
                (act.state, Stored(doc, act)))
  {
    assert (events + [e])[..|events|] == events;
  }

  /** The loop, over everything received until both event channels closed. */
  method ReceiveAll(run: Run, stored: Option<Doc>, events: seq<Event>) returns (s: State, doc: Option<Doc>)
    ensures (s, doc) == After(run, stored, events)
  {
    hide After, SafeCheckpoint, RecordFor;
    var at: map<nat, Checkpoint>, delivered, recordWritten := map[], Delivered(0, 0), false;
    var durable: nat, lastPersisted: nat := 0, 0;
    doc := stored;
    assert After(run, stored, []) == (Fresh, stored) by { AfterNothing(run, stored); }
    for i := 0 to |events|
      invariant After(run, stored, events[..i]) == (State(at, durable, delivered, lastPersisted, recordWritten), doc)
    {
      assert events[..i + 1] == events[..i] + [events[i]];
      AfterOneMore(run, stored, events[..i], events[i]);
      match events[i] {
        case Reported(c) => at := at[c.batchSeq := c];
        case Committed(n) => durable := Max(durable, n);
        case Prefix(d) => if d.through > delivered.through { delivered := d; }
      }
      if run.interval > 0 {
        var c := SafeCheckpoint(at, if run.withSink then delivered.through else durable);
        if c.Some? && c.value.batchSeq >= lastPersisted + run.interval {
          var record := RecordFor(run, c.value, if run.withSink then Some(delivered) else None);
          doc := Some(Doc(c.value.cursor, run.runId, record));
          recordWritten, lastPersisted := recordWritten || record.Some?, c.value.batchSeq;
        }
      }
    }
    assert events[..|events|] == events;
    s := State(at, durable, delivered, lastPersisted, recordWritten);
  }

  lemma AfterNothing(run: Run, stored: Option<Doc>)
    ensures After(run, stored, []) == (Fresh, stored)
  {
  }

  /** The final flush: the sink's late reports are drained first. */
  method FinalFlush(run: Run, s: State, before: Option<Doc>, gate: Option<bool>, late: seq<Delivered>, outcome: bool)
    returns (doc: Option<Doc>)
    ensures doc == Stored(before, Flush(run, s, gate, late, outcome))
  {
    hide SafeCheckpoint, RecordFor;
    doc := before;
    var frontier, allDelivered, delivered := s.durable, true, s.delivered;
    if gate.Some? {
      allDelivered := gate.value;
      var j := 0;
      while j < |late|
        invariant 0 <= j <= |late|
        invariant Drain(s.delivered, late) == Drain(delivered, late[j..])
      {
        if late[j].through > delivered.through {
          delivered := late[j];
        }
        j := j + 1;
      }
      if !allDelivered {
        frontier := delivered.through;
      }
    }
    var succeeded := allDelivered && outcome;
    var c := SafeCheckpoint(s.at, frontier);
    var hadRecord := s.recordWritten || (run.prior.Some? && run.prior.value.resume.Some?);
    if c.Some? && (c.value.batchSeq > s.lastPersisted || (succeeded && hadRecord)) {
      var record := if succeeded then None else RecordFor(run, c.value, if run.withSink then Some(delivered) else None);
      doc := Some(Doc(c.value.cursor, run.runId, record));
    } else if c.None? && succeeded && hadRecord && run.prior.Some? {
      doc := Some(Doc(run.prior.value.cursor, run.runId, None));
    }
  }

  /** The whole of the state supervisor. */
  method Supervise(run: Run, stored: Option<Doc>, events: seq<Event>, gate: Option<bool>,
                   late: seq<Delivered>, outcome: bool) returns (doc: Option<Doc>)
    ensures var (s, before) := After(run, stored, events);
            doc == Stored(before, Flush(run, s, gate, late, outcome))
  {
    var s, before := ReceiveAll(run, stored, events);
    doc := FinalFlush(run, s, before, gate, late, outcome);
  }

  // ----- which watermark is stored at the end --------------------------------

  /** The checkpoint a run may stand by at `frontier`: of those received at or
      below it the one of the highest batch, the last one if that came twice. */
  function NewestUpTo(events: seq<Event>, frontier: nat): Option<Checkpoint> {
    if events == [] then None
    else
      var before := NewestUpTo(events[..|events| - 1], frontier);
      match events[|events| - 1]
      case Reported(c) =>
        if c.batchSeq <= frontier && (before.None? || before.value.batchSeq <= c.batchSeq) then Some(c) else before
      case _ => before
  }

  /** The highest batch the destination called durable. */
  function CommittedThrough(events: seq<Event>): nat {
    if events == [] then 0
    else
      var before := CommittedThrough(events[..|events| - 1]);
      match events[|events| - 1]
      case Committed(n) => Max(before, n)
      case _ => before
  }

  /** The furthest delivered prefix heard of. */
  function DeliveredSoFar(events: seq<Event>): Delivered {
    if events == [] then Delivered(0, 0)
    else
      var before := DeliveredSoFar(events[..|events| - 1]);
      match events[|events| - 1]
      case Prefix(d) => Further(before, d)
      case _ => before
  }

  /** With the prefixes still queued when the sink exited. */
  function DeliveredAtEnd(events: seq<Event>, gate: Option<bool>, late: seq<Delivered>): Delivered {
    if gate.Some? then Drain(DeliveredSoFar(events), late) else DeliveredSoFar(events)
  }

  /** How far a run may stand by its checkpoints at its end: its commits, or
      the delivered prefix if its sink did not deliver everything. */
  function FinalFrontier(events: seq<Event>, gate: Option<bool>, late: seq<Delivered>): nat {
    if gate == Some(false) then DeliveredAtEnd(events, gate, late).through else CommittedThrough(events)
  }

  predicate Succeeded(gate: Option<bool>, outcome: bool) { gate != Some(false) && outcome }

  /** A resume record was stored by this run or the one before it. */
  predicate HadRecord(run: Run, s: State) {
    s.recordWritten || (run.prior.Some? && run.prior.value.resume.Some?)
  }

  /** Throttled or not, the loop forgets nothing it may have to stand by. */
  lemma {:induction false} LoopRemembers(run: Run, stored: Option<Doc>, events: seq<Event>, frontier: nat)
    ensures var s := After(run, stored, events).0;
            && SafeCheckpoint(s.at, frontier) == NewestUpTo(events, frontier)
            && s.durable == CommittedThrough(events) && s.delivered == DeliveredSoFar(events)
            && (forall b :: b in s.at ==> s.at[b].batchSeq == b)
  {
    hide RecordFor, SafeCheckpoint;
    if events == [] {
      NoCheckpoint(frontier);
    } else {
      var rest, e := events[..|events| - 1], events[|events| - 1];
      LoopRemembers(run, stored, rest, frontier);
      var s := After(run, stored, rest).0;
      hide After;
      assert rest + [e] == events;
      AfterOneMore(run, stored, rest, e);
      if e.Reported? {
        OneMoreCheckpoint(s.at, e.checkpoint, frontier);
      }
    }
  }

  lemma NoCheckpoint(frontier: nat)
    ensures SafeCheckpoint(map[], frontier).None?
  {
  }

  lemma OneMoreCheckpoint(at: map<nat, Checkpoint>, c: Checkpoint, frontier: nat)
    requires forall b :: b in at ==> at[b].batchSeq == b
    ensures var before := SafeCheckpoint(at, frontier);
            SafeCheckpoint(at[c.batchSeq := c], frontier)
            == if c.batchSeq <= frontier && (before.None? || before.value.batchSeq <= c.batchSeq) then Some(c) else before
  {
    var after := SafeBatch(at[c.batchSeq := c], frontier);
    assert c.batchSeq in at[c.batchSeq := c];
    if SafeBatch(at, frontier).Some? {
      assert SafeBatch(at, frontier).value in at[c.batchSeq := c];
    }
  }

  /** What the record stored beside the checkpoint of token `token` holds: none
      if the run cannot be resumed or would need nothing beyond the watermark;
      else the run's identity, that token and, with a sink, the number after
      the files delivered so far. */
  predicate Describes(record: Option<ResumeRecord>, run: Run, token: Option<Token>, delivered: Delivered) {
    && (record.Some? <==> run.resume.Some? && (run.withSink || token.Some?))
    && (record.Some? ==>
          && record.value.runId == run.runId
          && record.value.startedAt == run.resume.value.startedAt
          && record.value.configHash == run.resume.value.configHash
          && record.value.token == token
          && (record.value.nextObjectSeq.Some? <==> run.withSink)
          && (run.withSink && run.resume.value.firstObjectSeq.None? ==> record.value.nextObjectSeq.value == delivered.objects + 1)
          && (run.withSink && run.resume.value.firstObjectSeq.Some? ==>
                record.value.nextObjectSeq.value - run.resume.value.firstObjectSeq.value == delivered.objects))
  }

  /** The document that stands for checkpoint `c` of a run still going or failed. */
  predicate StandsFor(doc: Doc, run: Run, c: Checkpoint, delivered: Delivered) {
    doc.cursor == c.cursor && doc.runId == run.runId && Describes(doc.resume, run, c.token, delivered)
  }

  lemma RecordDescribes(run: Run, c: Checkpoint, delivered: Delivered)
    ensures Describes(RecordFor(run, c, if run.withSink then Some(delivered) else None), run, c.token, delivered)
  {
  }

  /** How far a run may stand by its checkpoints while it goes on. */
  function LoopFrontier(run: Run, events: seq<Event>): nat {
    if run.withSink then DeliveredSoFar(events).through else CommittedThrough(events)
  }

  /** The document stands for the newest checkpoint the run could stand by
      after these events. */
  predicate NewestAfter(doc: Option<Doc>, run: Run, events: seq<Event>, batch: nat) {
    var n := NewestUpTo(events, LoopFrontier(run, events));
    && n.Some? && n.value.batchSeq == batch
    && doc.Some? && StandsFor(doc.value, run, n.value, DeliveredSoFar(events))
  }

  /** It was stored at one moment of the run, and a record in it is remembered. */
  ghost predicate StoredAtAMoment(run: Run, events: seq<Event>, s: State, doc: Option<Doc>) {
    && 0 < run.interval && doc.Some? && (doc.value.resume.Some? ==> s.recordWritten)
    && exists i :: 0 < i <= |events| && NewestAfter(doc, run, events[..i], s.lastPersisted)
  }

  /** What the run may stand by is less than an interval ahead of what is stored. */
  predicate NotOverdue(run: Run, events: seq<Event>, s: State) {
    var n := NewestUpTo(events, LoopFrontier(run, events));
    0 < run.interval && n.Some? && events != [] ==> n.value.batchSeq < s.lastPersisted + run.interval
  }

  /** The document in store after the loop: either nothing was stored, or it
      was taken at one moment of the run and its cursor, token and delivered
      files all belong to that moment. What the run may stand by is never an
      interval or more ahead of it. */
  lemma {:induction false} LoopStoresOneMoment(run: Run, stored: Option<Doc>, events: seq<Event>)
    ensures var (s, doc) := After(run, stored, events);
            && ((doc == stored && s.lastPersisted == 0 && !s.recordWritten) || StoredAtAMoment(run, events, s, doc))
            && NotOverdue(run, events, s)
  {
    if events == [] {
      AfterNothing(run, stored);
    } else {
      var rest, e := events[..|events| - 1], events[|events| - 1];
      LoopStoresOneMoment(run, stored, rest);
      LoopRemembers(run, stored, events, LoopFrontier(run, events));
      assert rest + [e] == events;
      AfterOneMore(run, stored, rest, e);
      var (s, doc) := After(run, stored, rest);
      LoopStep(run, Absorb(s, e), events);
      if OnEvent(run, s, e).store.None? && StoredAtAMoment(run, rest, s, doc) { MomentStays(run, rest, e, s, doc); }
      hide After, MaybePersist, StoredAtAMoment, NotOverdue;
    }
  }

  lemma MomentStays(run: Run, rest: seq<Event>, e: Event, s: State, doc: Option<Doc>)
    requires StoredAtAMoment(run, rest, s, doc)
    ensures forall t: State :: t.lastPersisted == s.lastPersisted && t.recordWritten == s.recordWritten ==>
              StoredAtAMoment(run, rest + [e], t, doc)
  {
    var events := rest + [e];
    var i :| 0 < i <= |rest| && NewestAfter(doc, run, rest[..i], s.lastPersisted);
    hide NewestAfter;
    assert events[..i] == rest[..i];
  }

  /** One event more, taken up by `s`. */
  lemma LoopStep(run: Run, s: State, events: seq<Event>)
    requires events != []
    requires SafeCheckpoint(s.at, LoopFrontier(run, events)) == NewestUpTo(events, LoopFrontier(run, events))
    requires s.durable == CommittedThrough(events) && s.delivered == DeliveredSoFar(events)
    ensures var act := MaybePersist(run, s);
            && NotOverdue(run, events, act.state)
            && (act.store.Some? ==> StoredAtAMoment(run, events, act.state, act.store))
            && (act.store.None? ==> act.state == s)
  {
    hide RecordFor, SafeCheckpoint, NewestUpTo, DeliveredSoFar, CommittedThrough;
    var act := MaybePersist(run, s);
    if act.store.Some? {
      RecordDescribes(run, SafeCheckpoint(s.at, Frontier(run, s)).value, s.delivered);
      assert events[..|events|] == events;
      assert NewestAfter(act.store, run, events, act.state.lastPersisted);
    }
  }

  /** The document a run leaves, from what it received: that of the newest
      checkpoint it may stand by, with no record after a success and else the
      record described; or the prior watermark without its record; or what was
      in store. */
  predicate Leaves(doc: Option<Doc>, run: Run, before: Option<Doc>, lastPersisted: nat, clears: bool, succeeded: bool,
                   n: Option<Checkpoint>, delivered: Delivered) {
    if n.Some? && (n.value.batchSeq > lastPersisted || clears) then
      && doc.Some?
      && (succeeded ==> doc.value == Doc(n.value.cursor, run.runId, None))
      && (!succeeded ==> StandsFor(doc.value, run, n.value, delivered))
    else if n.None? && clears && run.prior.Some? then doc == Some(Doc(run.prior.value.cursor, run.runId, None))
    else doc == before
  }

  lemma FlushFromEvents(run: Run, stored: Option<Doc>, events: seq<Event>, gate: Option<bool>, late: seq<Delivered>, outcome: bool)
    ensures var (s, before) := After(run, stored, events);
            Leaves(Stored(before, Flush(run, s, gate, late, outcome)), run, before, s.lastPersisted,
                   Succeeded(gate, outcome) && HadRecord(run, s), Succeeded(gate, outcome),
                   NewestUpTo(events, FinalFrontier(events, gate, late)), DeliveredAtEnd(events, gate, late))
  {
    var n := NewestUpTo(events, FinalFrontier(events, gate, late));
    LoopRemembers(run, stored, events, FinalFrontier(events, gate, late));
    if n.Some? {
      RecordDescribes(run, n.value, DeliveredAtEnd(events, gate, late));
    }
    hide RecordFor, SafeCheckpoint, NewestUpTo, After, Drain, CommittedThrough, DeliveredSoFar, Describes;
  }

  /** For every run and however it ends: the watermark stored last is that of
      the newest checkpoint it may stand by, if and only if that one's batch
      lies beyond the one stored last, or the run succeeded with a record to
      clear, or the same value was stored before. */
  lemma FinalWatermarkIsNewestIff(run: Run, stored: Option<Doc>, events: seq<Event>, gate: Option<bool>,
                                  late: seq<Delivered>, outcome: bool)
    requires NewestUpTo(events, FinalFrontier(events, gate, late)).Some?
    ensures var (s, before) := After(run, stored, events);
            var doc := Stored(before, Flush(run, s, gate, late, outcome));
            var n := NewestUpTo(events, FinalFrontier(events, gate, late)).value;
            doc.Some? && doc.value.cursor == n.cursor <==>
              || n.batchSeq > s.lastPersisted
              || (Succeeded(gate, outcome) && HadRecord(run, s))
              || (before.Some? && before.value.cursor == n.cursor)
  {
    FlushFromEvents(run, stored, events, gate, late, outcome);
    hide RecordFor, NewestUpTo, After, Flush, Describes;
  }

  /** A run that failed and stored its newest checkpoint at the end: the next
      run finds that one's cursor and token, the failed run's identity, and the
      number after the files delivered. */
  lemma FailedRunIsContinuable(run: Run, stored: Option<Doc>, events: seq<Event>, gate: Option<bool>,
                               late: seq<Delivered>, outcome: bool)
    requires !Succeeded(gate, outcome)
    requires var n := NewestUpTo(events, FinalFrontier(events, gate, late));
             n.Some? && n.value.batchSeq > After(run, stored, events).0.lastPersisted
    ensures var (s, before) := After(run, stored, events);
            var doc := Stored(before, Flush(run, s, gate, late, outcome));
            var n := NewestUpTo(events, FinalFrontier(events, gate, late)).value;
            doc.Some? && StandsFor(doc.value, run, n, DeliveredAtEnd(events, gate, late))
  {
    FlushFromEvents(run, stored, events, gate, late, outcome);
    hide RecordFor, NewestUpTo, After, Flush, StandsFor;
  }

  /** A run that succeeded leaves no record, so that nothing continues it; but
      for one case: it stored one on the way, had no prior document, and stands
      by no checkpoint at its end. */
  lemma SuccessClearsTheRecordIff(run: Run, events: seq<Event>, gate: Option<bool>, late: seq<Delivered>, outcome: bool)
    requires Succeeded(gate, outcome)
    ensures var (s, before) := After(run, run.prior, events);
            var doc := Stored(before, Flush(run, s, gate, late, outcome));
            doc.Some? && doc.value.resume.Some? <==>
              && NewestUpTo(events, FinalFrontier(events, gate, late)).None? && run.prior.None?
              && before.Some? && before.value.resume.Some?
  {
    FlushFromEvents(run, run.prior, events, gate, late, outcome);
    LoopStoresOneMoment(run, run.prior, events);
    hide NewestUpTo, After, Flush, NewestAfter, NotOverdue;
  }

  lemma {:induction false} NoPersistBeforeTheEnd(run: Run, stored: Option<Doc>, events: seq<Event>)
    requires run.interval == 0
    ensures var (s, doc) := After(run, stored, events); doc == stored && s.lastPersisted == 0 && !s.recordWritten
  {
    if events != [] {
      NoPersistBeforeTheEnd(run, stored, events[..|events| - 1]);
    }
  }

  /** With `checkpoint_interval` 0 the last watermark is exact at any frontier,
      for success and failure: it is that of the newest checkpoint at or below
      it, with the record that goes with it or none after a success; without
      such a checkpoint the watermark stays what it was. */
  lemma FinalFlushIsExact(run: Run, stored: Option<Doc>, events: seq<Event>, gate: Option<bool>, late: seq<Delivered>, outcome: bool)
    requires run.interval == 0 && stored == run.prior
    requires forall i :: 0 <= i < |events| && events[i].Reported? ==> 0 < events[i].checkpoint.batchSeq
    ensures var (s, before) := After(run, stored, events);
            var doc := Stored(before, Flush(run, s, gate, late, outcome));
            var n := NewestUpTo(events, FinalFrontier(events, gate, late));
            if n.Some? then
              && doc.Some?
              && (Succeeded(gate, outcome) ==> doc.value == Doc(n.value.cursor, run.runId, None))
              && (!Succeeded(gate, outcome) ==> StandsFor(doc.value, run, n.value, DeliveredAtEnd(events, gate, late)))
            else
              && doc.Some? == stored.Some?
              && (doc.Some? ==> doc.value.cursor == stored.value.cursor)
              && (doc.Some? && Succeeded(gate, outcome) ==> doc.value.resume.None?)
  {
    NoPersistBeforeTheEnd(run, stored, events);
    NewestWasReported(events, FinalFrontier(events, gate, late));
    FlushFromEvents(run, stored, events, gate, late, outcome);
    hide RecordFor, NewestUpTo, After, Flush, StandsFor;
  }

  lemma {:induction false} NewestWasReported(events: seq<Event>, frontier: nat)
    ensures var n := NewestUpTo(events, frontier);
            n.Some? ==> n.value.batchSeq <= frontier
                        && exists i :: 0 <= i < |events| && events[i] == Reported(n.value)
  {
    if events != [] {
      var rest := events[..|events| - 1];
      NewestWasReported(rest, frontier);
      var n := NewestUpTo(events, frontier);
      if n.Some? && n == NewestUpTo(rest, frontier) {
        var i :| 0 <= i < |rest| && rest[i] == Reported(n.value);
        assert events[i] == Reported(n.value);
      } else if n.Some? {
        assert events[|events| - 1] == Reported(n.value);
      }
    }
  }

  /** Throttled it may stop short: the checkpoint sent when the stream ends
      carries the batch already persisted, and is then not stored. */
  lemma ThrottledFlushMayStopShort(batch: nat, v: Cursor, w: Cursor)
    requires 0 < batch && v != w
    ensures var run := Run(1, batch, None, None, false);
            var events := [Reported(Checkpoint(batch, Some(v), None)), Committed(batch), Reported(Checkpoint(batch, Some(w), None))];
            var (s, before) := After(run, None, events);
            && NewestUpTo(events, FinalFrontier(events, None, [])) == Some(Checkpoint(batch, Some(w), None))
            && Stored(before, Flush(run, s, None, [], true)) == Some(Doc(Some(v), 1, None))
  {
    var run := Run(1, batch, None, None, false);
    var c, d := Checkpoint(batch, Some(v), None), Checkpoint(batch, Some(w), None);
    var e1 := [Reported(c)];
    var e2 := e1 + [Committed(batch)];
    var e3 := e2 + [Reported(d)];
    assert e1[..0] == [] && e2[..1] == e1 && e3[..2] == e2;
    OneMoreCheckpoint(map[], c, 0);
    OneMoreCheckpoint(map[], c, batch);
    assert map[][batch := c] == map[batch := c];
    assert After(run, None, e1) == (State(map[batch := c], 0, Delivered(0, 0), 0, false), None);
    assert After(run, None, e2) == (State(map[batch := c], batch, Delivered(0, 0), batch, false), Some(Doc(Some(v), 1, None)));
    OneMoreCheckpoint(map[batch := c], d, batch);
    assert map[batch := c][batch := d] == map[batch := d];
    assert e3 == [Reported(c), Committed(batch), Reported(d)];
    assert CommittedThrough(e1) == 0 && NewestUpTo(e1, batch) == Some(c);
    assert CommittedThrough(e2) == batch && NewestUpTo(e2, batch) == Some(c);
    assert CommittedThrough(e3) == batch && NewestUpTo(e3, batch) == Some(d);
  }
}
