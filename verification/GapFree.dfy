/**
 Gap-free resume over any number of runs.

 In every reachable world each row is held at the target, in an object no later
 run may overwrite, or lies strictly above the stored watermark, so the next run
 reads it again. The watermark never moves back, and a run that succeeds leaves
 no row missing.
 */
module GapFree {
  import opened Wrappers
  import opened Source
  import opened SinkLedger
  import SS = StateSupervisor
  import opened Pipeline
  import opened Resume
  import opened PipelineSteps

  // ----- whole histories ---------------------------------------------------------

  /** The world after `steps`, if each was possible. */
  function Run(w: World, steps: seq<Step>): Option<World>
    decreases |steps|
  {
    if steps == [] then Some(w)
    else if Possible(w, steps[0]) then Run(Next(w, steps[0]), steps[1..])
    else None
  }

  /** Each step met its condition, see `Pipeline.Safe`. */
  ghost predicate SafeRun(w: World, steps: seq<Step>)
    requires Run(w, steps).Some?
    decreases |steps|
  {
    steps != [] ==> Safe(w, steps[0]) && SafeRun(Next(w, steps[0]), steps[1..])
  }

  /** A possible and safe history. */
  ghost predicate History(w: World, steps: seq<Step>) {
    Run(w, steps).Some? && SafeRun(w, steps)
  }

  /** Both conditions hold by themselves where runs that start afresh have an
      id of their own and files carry their ranges. */
  lemma OrdinaryStepsAreSafe(w: World, s: Step)
    requires Inv(w) && Possible(w, s)
    requires s.Start? && s.options.withSink && Resuming(w.doc, s.options).None? ==> s.options.runId !in w.used
    requires s.Fail? && s.sinkDone ==> forall k :: 0 <= k < |w.live.value.files| ==> w.live.value.files[k].ranged
    ensures Safe(w, s)
  {
    hide RowsHeld, DocOk, LiveOk, Covered, AllDelivered;
    if s.Start? {
      assert Reopened(w, s.options) == w.used;
    } else if s.Fail? && s.sinkDone {
      RangedIsCovered(w);
    }
  }

  lemma {:induction false} RunKeeps(w: World, steps: seq<Step>)
    requires Inv(w) && History(w, steps)
    ensures Inv(Run(w, steps).value)
    decreases |steps|
  {
    hide Inv, Safe, Possible, Next;
    if steps != [] {
      StepKeeps(w, steps[0]);
      RunKeeps(Next(w, steps[0]), steps[1..]);
    }
  }

  /** Gap-free: after any history each row is held for good, or lies strictly
      above the stored watermark and is read again. */
  lemma NoGapEver(table: seq<Cursor>, landed: set<nat>, target: map<Key, set<nat>>, steps: seq<Step>, row: nat)
    requires Ascending(table) && History(World(table, landed, target, None, {}, None), steps)
    requires row < |Run(World(table, landed, target, None, {}, None), steps).value.table|
    ensures var w := Run(World(table, landed, target, None, {}, None), steps).value;
            Held(w, row) || Mark(w.doc).None? || Mark(w.doc).value < w.table[row]
  {
    InitInv(table, landed, target);
    RunKeeps(World(table, landed, target, None, {}, None), steps);
  }

  /** The stored document's watermark does not lie below the one before. */
  predicate Rises(doc: Option<SS.Doc>, act: SS.Act) {
    act.store.Some? && Mark(doc).Some? ==> AtOrBelow(Mark(doc).value, act.store.value.cursor)
  }

  lemma PersistRises(table: seq<Cursor>, l: Live, doc: Option<SS.Doc>)
    requires CheckpointsOk(table, l, doc)
    ensures Rises(doc, SS.MaybePersist(l.run, l.sup))
  {
    hide CheckpointsOk, SS.Frontier, SS.RecordFor, SS.SafeCheckpoint;
    if SS.MaybePersist(l.run, l.sup).store.Some? {
      SafeIsOk(table, l, doc, SS.Frontier(l.run, l.sup));
    }
  }

  lemma FlushRises(table: seq<Cursor>, l: Live, doc: Option<SS.Doc>, used: set<nat>, gate: Option<bool>, outcome: bool)
    requires CheckpointsOk(table, l, doc) && NumberingOk(doc, used, l)
    requires outcome ==> gate != Some(false) && l.sup.durable == |l.cuts|
    ensures Rises(doc, SS.Flush(l.run, l.sup, gate, l.prefixes, outcome))
  {
    hide CheckpointsOk, SS.RecordFor, SS.SafeCheckpoint, SS.Drain;
    var act := SS.Flush(l.run, l.sup, gate, l.prefixes, outcome);
    var frontier := if gate == Some(false) then SS.Drain(l.sup.delivered, l.prefixes).through else l.sup.durable;
    if act.store.Some? && SS.SafeCheckpoint(l.sup.at, frontier).Some? {
      SafeIsOk(table, l, doc, frontier);
    }
    if outcome {
      SuccessReachesLast(table, l, doc);
    }
  }

  /** No step lowers the watermark. */
  lemma WatermarkNeverDecreases(w: World, s: Step)
    requires Inv(w) && Possible(w, s) && Mark(w.doc).Some?
    ensures AtOrBelow(Mark(w.doc).value, Mark(Next(w, s).doc))
  {
    hide RowsHeld, DocOk, LiveOk, SS.MaybePersist, SS.Absorb, SS.Flush, AllDelivered;
    if w.live.Some? {
      var l := w.live.value;
      match s {
        case ReceiveCheckpoint =>
          ReceiveCheckpointAbsorbs(w, l);
          ReceivedRises(w, l.(checkpoints := l.checkpoints[1..], sup := SS.Absorb(l.sup, SS.Reported(l.checkpoints[0]))));
        case ReceiveCommit =>
          ReceiveCommitAbsorbs(w, l);
          ReceivedRises(w, l.(commits := l.commits[1..], sup := SS.Absorb(l.sup, SS.Committed(l.commits[0]))));
        case ReceivePrefix =>
          ReceivePrefixAbsorbs(w, l);
          ReceivedRises(w, l.(prefixes := l.prefixes[1..], sup := SS.Absorb(l.sup, SS.Prefix(l.prefixes[0]))));
        case Fail(sinkDone) => FlushedRises(w, l, if l.run.withSink then Some(sinkDone) else None, false);
        case Succeed => FlushedRises(w, l, if l.run.withSink then Some(true) else None, true);
        case _ =>
      }
    }
  }

  lemma ReceivedRises(w: World, l: Live)
    requires LiveOk(w, l)
    ensures Rises(w.doc, SS.MaybePersist(l.run, l.sup))
  {
    hide SourceOk, CheckpointsOk, FilesOk, CommitsOk, ObjectsOk, PrefixesOk, NumberingOk, Rises, SS.MaybePersist;
    PersistRises(w.table, l, w.doc);
  }

  lemma FlushedRises(w: World, l: Live, gate: Option<bool>, outcome: bool)
    requires LiveOk(w, l)
    requires outcome ==> gate != Some(false) && l.sup.durable == |l.cuts|
    ensures Rises(w.doc, SS.Flush(l.run, l.sup, gate, l.prefixes, outcome))
  {
    hide SourceOk, CheckpointsOk, FilesOk, CommitsOk, ObjectsOk, PrefixesOk, NumberingOk, Rises, SS.Flush;
    FlushRises(w.table, l, w.doc, w.used, gate, outcome);
  }

  /** So it never moves back, over any number of runs. */
  lemma {:induction false} WatermarkOnlyRises(w: World, steps: seq<Step>)
    requires Inv(w) && History(w, steps) && Mark(w.doc).Some?
    ensures AtOrBelow(Mark(w.doc).value, Mark(Run(w, steps).value.doc))
    decreases |steps|
  {
    hide Inv, Safe, Possible, Next;
    if steps != [] {
      StepKeeps(w, steps[0]);
      WatermarkNeverDecreases(w, steps[0]);
      WatermarkOnlyRises(Next(w, steps[0]), steps[1..]);
    }
  }

  /** A row that is at the target now, held for good or not. */
  ghost predicate Present(w: World, row: nat) {
    row in w.landed || exists key :: key in w.target && row in w.target[key]
  }

  lemma EverythingWasRead(table: seq<Cursor>, l: Live)
    requires SourceOk(table, l) && l.ended
    ensures Upto(l, |l.cuts|) == l.limit <= |table|
    ensures forall i :: 0 <= i < l.base ==> AtOrBelow(table[i], l.start)
  {
  }

  /** A successful run leaves no row of its snapshot missing. */
  lemma SuccessLeavesNoRowMissing(w: World, row: nat)
    requires Inv(w) && Possible(w, Succeed) && row < w.live.value.limit
    ensures Present(Next(w, Succeed), row)
  {
    hide RowsHeld, SourceOk, CheckpointsOk, FilesOk, CommitsOk, ObjectsOk, PrefixesOk, NumberingOk, SS.Flush, AllDelivered, DocOk;
    var l := w.live.value;
    EverythingWasRead(w.table, l);
    StartIsBelow(w, l);
    if row < l.base {
      HeldIsPresent(w, row);
    } else {
      var doc := SS.Doc(None, l.run.runId, None);
      SuccessHoldsAllRead(w, l, doc, |l.cuts|);
      assert HeldIn(w.landed, w.target, Some(doc), w.used + {l.run.runId}, row);
    }
  }

  lemma HeldIsPresent(w: World, row: nat)
    requires RowsHeld(w.table, w.landed, w.target, w.doc, w.used)
    requires row < |w.table| && AtOrBelow(w.table[row], Mark(w.doc))
    ensures Present(w, row)
  {
    assert Held(w, row);
    if row !in w.landed {
      var key :| key in w.target && row in w.target[key] && Protected(w.doc, w.used, key);
    }
  }

  /** After any history of failed and crashed runs, the first one that succeeds
      leaves no row of its snapshot missing. */
  lemma FirstSuccessLeavesNoRowMissing(table: seq<Cursor>, landed: set<nat>, target: map<Key, set<nat>>,
                                       steps: seq<Step>, row: nat)
    requires Ascending(table) && History(World(table, landed, target, None, {}, None), steps)
    requires var w := Run(World(table, landed, target, None, {}, None), steps).value;
             Possible(w, Succeed) && row < w.live.value.limit
    ensures Present(Next(Run(World(table, landed, target, None, {}, None), steps).value, Succeed), row)
  {
    hide Possible, Safe, Next, Present;
    RunKeeps(World(table, landed, target, None, {}, None), steps);
    SuccessLeavesNoRowMissing(Run(World(table, landed, target, None, {}, None), steps).value, row);
  }

  /** A row the watermark passed is at the target from then on, whatever runs,
      fails, crashes and starts again. */
  lemma PassedRowsStay(w: World, steps: seq<Step>, row: nat)
    requires Inv(w) && History(w, steps) && row < |w.table| && AtOrBelow(w.table[row], Mark(w.doc))
    ensures Present(Run(w, steps).value, row)
  {
    RunKeeps(w, steps);
    WatermarkOnlyRises(w, steps);
    TableOnlyGrows(w, steps);
    var w' := Run(w, steps).value;
    hide Run, SafeRun;
    assert w'.table[row] == w'.table[..|w.table|][row];
    HeldIsPresent(w', row);
  }

  lemma {:induction false} TableOnlyGrows(w: World, steps: seq<Step>)
    requires Run(w, steps).Some?
    ensures w.table <= Run(w, steps).value.table
    decreases |steps|
  {
    if steps != [] {
      StepGrowsTable(w, steps[0]);
      hide Possible, Next;
      TableOnlyGrows(Next(w, steps[0]), steps[1..]);
    }
  }

  lemma StepGrowsTable(w: World, s: Step)
    requires Possible(w, s)
    ensures w.table <= Next(w, s).table
  {
    hide SS.OnEvent, SS.Flush, PrefixOf, WatermarkNow;
  }

  // ----- putting histories together ------------------------------------------------

  predicate Reaches(w: World, steps: seq<Step>, w': World) {
    Run(w, steps) == Some(w')
  }

  lemma OneStep(w: World, s: Step)
    requires Possible(w, s)
    ensures Reaches(w, [s], Next(w, s))
    ensures Safe(w, s) ==> SafeRun(w, [s])
  {
    hide Possible, Next, Safe;
    assert Run(Next(w, s), []) == Some(Next(w, s));
    assert [s][1..] == [];
  }

  lemma {:induction false} Then(w: World, a: seq<Step>, w1: World, b: seq<Step>, w2: World)
    requires Reaches(w, a, w1) && Reaches(w1, b, w2)
    ensures Reaches(w, a + b, w2)
    ensures SafeRun(w, a) && SafeRun(w1, b) ==> SafeRun(w, a + b)
    decreases |a|
  {
    hide Possible, Next, Safe;
    if a == [] {
      assert a + b == b;
    } else {
      assert (a + b)[1..] == a[1..] + b;
      Then(Next(w, a[0]), a[1..], w1, b, w2);
    }
  }
}
