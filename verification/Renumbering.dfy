/** File numbers across runs (runner.rs and state_supervisor.rs of loadsmith-core). */
module Renumbering {
  // Which objects a run may write, and exactly when a run that numbers its files
  // again loses no row it will not read again.
  //
  // A run writes only objects of its id, from its first number on, and it can
  // write every one of them. So a row it does not read again is safe exactly if
  // it is somewhere else. The last part is about the objects a continuing run
  // replaces: what the attempt before it left there lies above the watermark.

  import opened Wrappers
  import opened Source
  import opened SinkLedger
  import SS = StateSupervisor
  import opened Pipeline
  import opened Resume
  import opened PipelineSteps
  import opened GapFree

  // ----- what one run may write ----------------------------------------------------

  /** Steps of one run: none starts another. */
  predicate OneRun(steps: seq<Step>) {
    forall i :: 0 <= i < |steps| ==> !steps[i].Start?
  }

  /** The live run may stage a file under this name. */
  predicate Names(w: World, key: Key) {
    w.live.Some? && key.run == w.live.value.run.runId && w.live.value.first <= key.num
  }

  lemma StepWritesOnlyNamed(w: World, s: Step, key: Key)
    requires Possible(w, s) && !s.Start? && !Names(w, key)
    ensures !Names(Next(w, s), key) && w.landed <= Next(w, s).landed
    ensures key in w.target ==> key in Next(w, s).target && Next(w, s).target[key] == w.target[key]
  {
    hide SS.OnEvent, SS.Flush, PrefixOf, WatermarkNow, FileRows;
  }

  /** Whatever a run does, it writes only under the names of its files. */
  lemma {:induction false} RunWritesOnlyNamed(w: World, steps: seq<Step>, key: Key)
    requires Run(w, steps).Some? && OneRun(steps) && !Names(w, key)
    ensures var w' := Run(w, steps).value;
            w.landed <= w'.landed && (key in w.target ==> key in w'.target && w'.target[key] == w.target[key])
    decreases |steps|
  {
    hide Possible, Next, Names;
    if steps != [] {
      StepWritesOnlyNamed(w, steps[0], key);
      RunWritesOnlyNamed(Next(w, steps[0]), steps[1..], key);
    }
  }

  // ----- and what it can write ---------------------------------------------------------

  /** A run with a sink that announced all it wrote and had nothing acknowledged yet. */
  predicate Staging(l: Live) {
    && l.run.withSink && !l.ended && Upto(l, |l.cuts|) <= l.limit && l.acked == {}
    && l.written == |l.cuts| && l.arrived == |l.files| && CutsFit(l)
  }

  /** The run after one more batch of `n` rows in a file of its own. */
  function WithFile(l: Live, n: nat, ranged: bool): Live {
    l.(cuts := l.cuts + [Upto(l, |l.cuts|) + n], written := |l.cuts| + 1,
       files := l.files + [File(|l.cuts| + 1, ranged)], arrived := |l.files| + 1)
  }

  lemma StageFile(w: World, n: nat, ranged: bool) returns (steps: seq<Step>)
    requires w.live.Some? && Staging(w.live.value) && Upto(w.live.value, |w.live.value.cuts|) + n <= w.live.value.limit
    ensures Reaches(w, steps, w.(live := Some(WithFile(w.live.value, n, ranged)))) && SafeRun(w, steps) && OneRun(steps)
    ensures Staging(WithFile(w.live.value, n, ranged))
  {
    var l := w.live.value;
    var w1 := Next(w, NextBatch(n));
    var w2 := Next(w1, Step.Write);
    var w3 := Next(w2, Announce(|l.cuts| + 1, ranged));
    var w4 := Next(w3, Arrive);
    assert w4 == w.(live := Some(WithFile(l, n, ranged)));
    OneStep(w, NextBatch(n));
    OneStep(w1, Step.Write);
    OneStep(w2, Announce(|l.cuts| + 1, ranged));
    OneStep(w3, Arrive);
    hide Possible, Next, Safe, Reaches, SafeRun;
    Then(w, [NextBatch(n)], w1, [Step.Write], w2);
    Then(w2, [Announce(|l.cuts| + 1, ranged)], w3, [Arrive], w4);
    Then(w, [NextBatch(n)] + [Step.Write], w2, [Announce(|l.cuts| + 1, ranged)] + [Arrive], w4);
    steps := [NextBatch(n)] + [Step.Write] + ([Announce(|l.cuts| + 1, ranged)] + [Arrive]);
  }

  /** It can announce any number of files, of empty batches for one. */
  lemma {:induction false} StageFiles(w: World, n: nat) returns (steps: seq<Step>, w': World)
    requires w.live.Some? && Staging(w.live.value)
    ensures Reaches(w, steps, w') && OneRun(steps) && w' == w.(live := w'.live) && w'.live.Some?
    ensures var l, l' := w.live.value, w'.live.value;
            Staging(l') && l'.run == l.run && l'.first == l.first && |l'.files| == |l.files| + n
    decreases n
  {
    if n == 0 {
      steps, w' := [], w;
    } else {
      var one := StageFile(w, 0, true);
      var w1 := w.(live := Some(WithFile(w.live.value, 0, true)));
      var rest: seq<Step>;
      rest, w' := StageFiles(w1, n - 1);
      hide Staging, Reaches;
      Then(w, one, w1, rest, w');
      steps := one + rest;
    }
  }

  /** The objects numbered `first .. first + n` are empty, the others as before. */
  predicate Blanked(target: map<Key, set<nat>>, target': map<Key, set<nat>>, run: nat, first: nat, n: nat) {
    && (forall k :: first <= k < first + n ==> Key(run, k) in target' && target'[Key(run, k)] == {})
    && (forall key :: key in target' && !(key.run == run && first <= key.num < first + n) ==>
          key in target && target'[key] == target[key])
  }

  /** Uploads that break off at once leave empty objects behind. */
  lemma {:induction false} BlankFiles(w: World, n: nat) returns (steps: seq<Step>, w': World)
    requires w.live.Some? && Staging(w.live.value) && n <= |w.live.value.files|
    ensures Reaches(w, steps, w') && OneRun(steps) && w' == w.(live := w'.live, target := w'.target) && w'.live.Some?
    ensures var l := w.live.value;
            && Staging(w'.live.value) && w'.live.value == l.(staged := w'.live.value.staged)
            && Blanked(w.target, w'.target, l.run.runId, l.first, n)
  {
    if n == 0 {
      steps, w' := [], w;
    } else {
      var before: seq<Step>, w1: World;
      before, w1 := BlankFiles(w, n - 1);
      hide FileRows;
      w' := Next(w1, Upload(n - 1, {}));
      OneStep(w1, Upload(n - 1, {}));
      Then(w, before, w1, [Upload(n - 1, {})], w');
      steps := before + [Upload(n - 1, {})];
    }
  }

  // ----- exactly when a starting run keeps what was passed -----------------------------

  /** The row is at the target outside every object the starting run may name. */
  ghost predicate PresentElsewhere(w: World, o: Options, row: nat) {
    var l := Launch(w, o);
    row in w.landed || exists key :: key in w.target && row in w.target[key] && !(key.run == l.run.runId && l.first <= key.num)
  }

  predicate Passed(w: World, row: nat) {
    row < |w.table| && AtOrBelow(w.table[row], Mark(w.doc))
  }

  /** Whatever the starting run does, each row at or below the watermark it
      starts from stays at the target. */
  ghost predicate KeepsPassedRows(w: World, o: Options)
    requires w.live.None?
  {
    forall steps, row :: OneRun(steps) && Run(Next(w, Start(o)), steps).Some? && Passed(w, row) ==>
      Present(Run(Next(w, Start(o)), steps).value, row)
  }

  lemma {:induction false} NumbersEnd(keys: set<Key>) returns (n: nat)
    ensures forall key :: key in keys ==> key.num < n
  {
    if keys == {} {
      n := 0;
    } else {
      var key :| key in keys;
      var m := NumbersEnd(keys - {key});
      n := if key.num < m then m else key.num + 1;
      assert forall k :: k in keys ==> k == key || k in keys - {key};
    }
  }

  lemma LaunchStages(w: World, o: Options)
    requires w.live.None? && o.withSink
    ensures var l := Launch(w, o);
            Staging(l) && Next(w, Start(o)) == w.(used := Reopened(w, o), live := Some(l))
  {
  }

  /** A row only in objects the starting run names: enough broken uploads, and it is gone. */
  lemma OverwritesARow(w: World, o: Options, row: nat) returns (steps: seq<Step>)
    requires w.live.None? && o.withSink && !PresentElsewhere(w, o, row)
    ensures OneRun(steps) && Run(Next(w, Start(o)), steps).Some?
    ensures var w' := Run(Next(w, Start(o)), steps).value; w'.table == w.table && w'.doc == w.doc && !Present(w', row)
  {
    var n := NumbersEnd(w.target.Keys);
    var l := Launch(w, o);
    var w0 := Next(w, Start(o));
    LaunchStages(w, o);
    hide Next, Launch, Possible, Staging;
    var a, w1 := StageFiles(w0, n);
    var b, w2 := BlankFiles(w1, n);
    Then(w0, a, w1, b, w2);
    steps := a + b;
    forall key | key in w2.target ensures row !in w2.target[key] {
      if key.run == l.run.runId && l.first <= key.num < l.first + n {
        assert w2.target[Key(l.run.runId, key.num)] == {};
      } else {
        assert key in w.target && key.num < n;
      }
    }
  }

  /** A starting run with a sink keeps every row at or below the watermark, if
      and only if each of them is somewhere it does not write. */
  lemma KeepsIffElsewhere(w: World, o: Options)
    requires w.live.None? && o.withSink
    ensures KeepsPassedRows(w, o) <==> forall row :: Passed(w, row) ==> PresentElsewhere(w, o, row)
  {
    LaunchStages(w, o);
    hide Launch, Next, Possible, Staging;
    if forall row :: Passed(w, row) ==> PresentElsewhere(w, o, row) {
      forall steps, row | OneRun(steps) && Run(Next(w, Start(o)), steps).Some? && Passed(w, row)
        ensures Present(Run(Next(w, Start(o)), steps).value, row)
      {
        StaysElsewhere(w, o, steps, row);
      }
    } else {
      var row :| Passed(w, row) && !PresentElsewhere(w, o, row);
      var steps := OverwritesARow(w, o, row);
    }
  }

  lemma StaysElsewhere(w: World, o: Options, steps: seq<Step>, row: nat)
    requires w.live.None? && o.withSink && PresentElsewhere(w, o, row)
    requires OneRun(steps) && Run(Next(w, Start(o)), steps).Some?
    ensures Present(Run(Next(w, Start(o)), steps).value, row)
  {
    LaunchStages(w, o);
    hide Launch, Next, Possible, Staging;
    var w0, l := Next(w, Start(o)), Launch(w, o);
    var key: Key;
    if row !in w.landed {
      key :| key in w.target && row in w.target[key] && !(key.run == l.run.runId && l.first <= key.num);
    } else {
      key := Key(l.run.runId + 1, 0);
    }
    RunWritesOnlyNamed(w0, steps, key);
  }

  // ----- a run id used before ------------------------------------------------------------

  /** The files of whatever run starts next: each row at or below the watermark
      is held without them, if the start is safe. */
  lemma NextRunStagesOverNothing(w: World, o: Options, row: nat)
    requires Inv(w) && Enabled(w, Start(o)) && o.withSink && Passed(w, row)
    ensures PresentElsewhere(w, o, row)
  {
    var used := Reopened(w, o);
    assert HeldIn(w.landed, w.target, w.doc, used, row);
    if row !in w.landed {
      var key :| key in w.target && row in w.target[key] && Protected(w.doc, used, key);
      assert !(key.run == Launch(w, o).run.runId && Launch(w, o).first <= key.num);
    }
  }

  lemma ContinuingIsSafe(w: World, o: Options)
    requires Inv(w) && w.live.None? && Resuming(w.doc, o).Some?
    ensures Safe(w, Start(o))
  {
    hide RowsHeld;
  }

  /** Starting under an id, with a sink: every row at or below the watermark
      stays from then on if and only if the run continues a recorded one, or no
      such row is only in objects of that id. An id no document was stored
      under never matters. */
  lemma ReusedRunIdIsSafeIff(w: World, o: Options)
    requires Inv(w) && w.live.None? && o.withSink
    ensures KeepsPassedRows(w, o) <==>
              Resuming(w.doc, o).Some?
              || forall row :: Passed(w, row) ==>
                   row in w.landed
                   || exists key :: key in w.target && row in w.target[key] && !(key.run == o.runId && 1 <= key.num)
    ensures Resuming(w.doc, o).None? && o.runId !in w.used ==> KeepsPassedRows(w, o)
  {
    KeepsIffElsewhere(w, o);
    if Resuming(w.doc, o).Some? || o.runId !in w.used {
      assert Resuming(w.doc, o).None? ==> Reopened(w, o) == w.used;
      assert Safe(w, Start(o)) by {
        if Resuming(w.doc, o).Some? {
          ContinuingIsSafe(w, o);
        }
      }
      forall row | Passed(w, row) ensures PresentElsewhere(w, o, row) {
        NextRunStagesOverNothing(w, o, row);
      }
    }
    if Resuming(w.doc, o).None? {
      assert Launch(w, o).run.runId == o.runId && Launch(w, o).first == 1;
    }
  }

  // ----- a failed run whose sink delivered everything -------------------------------------

  /** The flush of a fully delivered failure has a checkpoint to store. */
  predicate HasMore(l: Live) {
    var c := SS.SafeCheckpoint(l.sup.at, l.sup.durable);
    c.Some? && c.value.batchSeq > l.sup.lastPersisted
  }

  /** The rows this run read are in its own objects and nowhere else. */
  predicate OnlyOwnObjects(w: World, l: Live) {
    && (forall row :: row in w.landed ==> row < l.base)
    && (forall key, row :: key in w.target && row in w.target[key] && l.base <= row ==>
          key.run == l.run.runId && l.first <= key.num < l.first + |l.files|)
  }

  lemma FlushOfDelivered(l: Live)
    requires l.run.withSink && HasMore(l)
    ensures SS.Flush(l.run, l.sup, Some(true), l.prefixes, false).store
            == Some(Unfinished(Drained(l), SS.SafeCheckpoint(l.sup.at, l.sup.durable).value))
  {
    hide SS.SafeCheckpoint, SS.RecordFor, SS.Drain;
  }

  lemma RecordOfUnfinished(doc: Option<SS.Doc>, used: set<nat>, l: Live, d: Delivered, c: Checkpoint)
    requires NumberingOk(doc, used, l) && l.run.withSink
    ensures var r := Unfinished(l.(sup := l.sup.(delivered := d), prefixes := []), c).resume;
            r.Some? && r.value.runId == l.run.runId && r.value.nextObjectSeq == Some(l.first + d.objects) && r.value.token == c.token
  {
  }

  lemma SafeHasCursor(table: seq<Cursor>, l: Live, doc: Option<SS.Doc>, frontier: nat)
    requires CheckpointsOk(table, l, doc) && SS.SafeCheckpoint(l.sup.at, frontier).Some?
    ensures SS.SafeCheckpoint(l.sup.at, frontier).value.cursor.Some? && SS.SafeCheckpoint(l.sup.at, frontier).value.token.None?
  {
    SafeIsOk(table, l, doc, frontier);
  }

  lemma FullyDeliveredDocument(w: World, l: Live)
    requires LiveOk(w, l) && l.run.withSink && HasMore(l)
    ensures var w' := Flushed(w, l, Some(true), false);
            && w'.table == w.table && w'.landed == w.landed && w'.target == w.target && w'.live.None?
            && Mark(w'.doc) == SS.SafeCheckpoint(l.sup.at, l.sup.durable).value.cursor && Mark(w'.doc).Some?
            && w'.doc.value.resume.Some? && w'.doc.value.resume.value.runId == l.run.runId
            && w'.doc.value.resume.value.nextObjectSeq == Some(l.first + LastPrefix(l).objects)
            && w'.doc.value.resume.value.token.None?
  {
    hide SourceOk, CheckpointsOk, FilesOk, CommitsOk, ObjectsOk, PrefixesOk, NumberingOk,
      SS.SafeCheckpoint, SS.Drain, SS.Flush, SS.RecordFor, Flushed, Unfinished, HasMore;
    var c := DeliveredStores(w, l);
    SafeHasCursor(w.table, l, w.doc, l.sup.durable);
    RecordOfUnfinished(w.doc, w.used, l, LastPrefix(l), c);
    UnfinishedCursor(Drained(l), c);
  }

  lemma UnfinishedCursor(l: Live, c: Checkpoint)
    ensures Unfinished(l, c).cursor == c.cursor
  {
  }

  /** What the flush changes. */
  lemma DeliveredStores(w: World, l: Live) returns (c: Checkpoint)
    requires l.run.withSink && HasMore(l)
    ensures SS.SafeCheckpoint(l.sup.at, l.sup.durable) == Some(c)
    ensures Flushed(w, l, Some(true), false)
            == w.(doc := Some(Unfinished(Drained(l), c)), used := w.used + {l.run.runId}, live := None)
  {
    hide SS.SafeCheckpoint, SS.Flush, SS.Drain, Unfinished;
    c := SS.SafeCheckpoint(l.sup.at, l.sup.durable).value;
    FlushOfDelivered(l);
  }

  lemma NextOfFail(w: World, l: Live)
    requires w.live == Some(l) && l.run.withSink && AllDelivered(l)
    ensures Possible(w, Fail(true)) && Next(w, Fail(true)) == Flushed(w, l, Some(true), false)
  {
    hide SS.Flush, SS.OnEvent, AllDelivered, PrefixOf, FileRows, WatermarkNow;
  }

  /** The file of a row this run read lies at or beyond every file that ends before it. */
  lemma OwnFileOfRow(target: map<Key, set<nat>>, l: Live, n: nat, key: Key, row: nat)
    requires FilesOk(l) && ObjectsOk(target, l) && AllDelivered(l) && n <= |l.files| && CutsAscend(l)
    requires CutsFit(l) && Upto(l, End(l.files, n)) <= row && key in target && row in target[key]
    requires key.run == l.run.runId && l.first <= key.num < l.first + |l.files|
    ensures l.first + n <= key.num
  {
    var k := key.num - l.first;
    assert key.num in l.acked && AckedOk(target, l, key.num);
    assert row in FileRows(l, k);
    EndsAscend(l, Min(k + 1, n), n);
  }

  predicate CutsAscend(l: Live) {
    && (forall b :: 0 <= b < |l.cuts| ==> l.base <= l.cuts[b])
    && (forall a, b :: 0 <= a < b < |l.cuts| ==> l.cuts[a] <= l.cuts[b])
  }

  lemma EndsAscend(l: Live, i: nat, j: nat)
    requires FilesOk(l) && CutsFit(l) && CutsAscend(l) && i <= j <= |l.files|
    ensures End(l.files, i) <= End(l.files, j) <= |l.cuts|
    ensures Upto(l, End(l.files, i)) <= Upto(l, End(l.files, j))
  {
    if 0 < i < j {
      assert l.files[i - 1].last < l.files[j - 1].last;
    }
  }

  lemma SourceAscends(table: seq<Cursor>, l: Live)
    requires SourceOk(table, l)
    ensures CutsAscend(l)
  {
  }

  /** The first row behind the files a record counts as delivered. */
  function BehindDelivered(l: Live): nat
    requires LastPrefix(l).objects <= |l.files| && CutsFit(l)
  {
    assert LastPrefix(l).objects > 0 ==> l.files[LastPrefix(l).objects - 1].last <= |l.cuts|;
    Upto(l, End(l.files, LastPrefix(l).objects))
  }

  lemma DeliveredFits(w: World, l: Live)
    requires LiveOk(w, l)
    ensures LastPrefix(l).objects <= |l.files| && CutsFit(l) && l.base <= BehindDelivered(l)
    ensures HasMore(l) && !Covered(w, l) ==>
              BehindDelivered(l) < RowsBelow(w.table, SS.SafeCheckpoint(l.sup.at, l.sup.durable).value.cursor)
  {
    LastPrefixIsOk(l);
    SourceAscends(w.table, l);
    hide SourceOk, CheckpointsOk, CommitsOk, ObjectsOk, PrefixesOk, NumberingOk, SS.SafeCheckpoint, LastPrefix, RowsBelow, PrefixOf;
    EndsAscend(l, 0, LastPrefix(l).objects);
  }

  /** That row's only objects are those the next run names. */
  lemma OwnRowIsOverwritten(w: World, l: Live, row: nat)
    requires LiveOk(w, l) && AllDelivered(l) && OnlyOwnObjects(w, l)
    requires LastPrefix(l).objects <= |l.files| && CutsFit(l) && l.base <= row && BehindDelivered(l) <= row
    ensures row !in w.landed
    ensures forall key :: key in w.target && row in w.target[key] ==>
              key.run == l.run.runId && l.first + LastPrefix(l).objects <= key.num
  {
    SourceAscends(w.table, l);
    hide SourceOk, CheckpointsOk, CommitsOk, ObjectsOk, PrefixesOk, NumberingOk, FilesOk, AllDelivered, LastPrefix, CutsAscend;
    forall key | key in w.target && row in w.target[key]
      ensures key.run == l.run.runId && l.first + LastPrefix(l).objects <= key.num
    {
      OwnFileOfRow(w.target, l, LastPrefix(l).objects, key, row);
    }
  }

  lemma ContinuesAt(w: World, o: Options)
    requires w.doc.Some? && w.doc.value.cursor.Some? && Resuming(w.doc, o).Some? && w.doc.value.resume.value.token.None?
    ensures var l, r := Launch(w, o), w.doc.value.resume.value;
            l.run.runId == r.runId && l.first == if r.nextObjectSeq.Some? then r.nextObjectSeq.value else 1
  {
  }

  lemma UncoveredRow(w: World, l: Live, o: Options) returns (row: nat)
    requires LiveOk(w, l) && Ascending(w.table) && l.run.withSink && AllDelivered(l) && HasMore(l) && OnlyOwnObjects(w, l)
    requires var w' := Flushed(w, l, Some(true), false); o.withSink && Resuming(w'.doc, o).Some? && !Covered(w, l)
    ensures var w' := Flushed(w, l, Some(true), false); Passed(w', row) && !PresentElsewhere(w', o, row)
  {
    hide LiveOk, AllDelivered, Flushed, Launch, SS.SafeCheckpoint, LastPrefix, RowsBelow, BehindDelivered, Covered, OnlyOwnObjects,
      CutsFit, Passed, PresentElsewhere, HasMore, Resumable;
    var w' := Flushed(w, l, Some(true), false);
    FullyDeliveredDocument(w, l);
    DeliveredFits(w, l);
    row := BehindDelivered(l);
    OwnRowIsOverwritten(w, l, row);
    RowBelowIsPassed(w', row);
    NotElsewhere(w', o, row, l.run.runId, l.first + LastPrefix(l).objects);
  }

  lemma RowBelowIsPassed(w: World, row: nat)
    requires Ascending(w.table) && row < RowsBelow(w.table, Mark(w.doc))
    ensures Passed(w, row)
  {
    RowsBelowIs(w.table, Mark(w.doc));
  }

  lemma NotElsewhere(w: World, o: Options, row: nat, run: nat, next: nat)
    requires w.doc.Some? && w.doc.value.cursor.Some? && Resuming(w.doc, o).Some? && w.doc.value.resume.value.token.None?
    requires w.doc.value.resume.value.runId == run && w.doc.value.resume.value.nextObjectSeq == Some(next)
    requires row !in w.landed && forall key :: key in w.target && row in w.target[key] ==> key.run == run && next <= key.num
    ensures !PresentElsewhere(w, o, row)
  {
    ContinuesAt(w, o);
    hide Launch;
  }

  /** A run that failed although its sink delivered everything: what continues
      it keeps every row at or below the new watermark if the files its record
      counts as delivered hold them, and only then if they are nowhere else. */
  lemma DeliveredFailureIsSafeIff(w: World, o: Options)
    requires Inv(w) && w.live.Some? && w.live.value.run.withSink && AllDelivered(w.live.value) && HasMore(w.live.value)
    requires o.withSink && Resuming(Flushed(w, w.live.value, Some(true), false).doc, o).Some?
    ensures var l, w' := w.live.value, Flushed(w, w.live.value, Some(true), false);
            && Possible(w, Fail(true)) && w' == Next(w, Fail(true))
            && (Covered(w, l) ==> Inv(w') && KeepsPassedRows(w', o))
            && (OnlyOwnObjects(w, l) ==> (KeepsPassedRows(w', o) <==> Covered(w, l)))
  {
    hide RowsHeld, DocOk, LiveOk, SS.Flush, AllDelivered, Launch, Covered, OnlyOwnObjects, HasMore, LiveNext, Passed, PresentElsewhere;
    var l, w' := w.live.value, Flushed(w, w.live.value, Some(true), false);
    NextOfFail(w, l);
    hide Next, Possible, KeepsPassedRows;
    KeepsIffElsewhere(w', o);
    if Covered(w, l) {
      CoveredContinues(w, o);
    } else if OnlyOwnObjects(w, l) {
      var row := UncoveredRow(w, l, o);
    }
  }

  lemma CoveredContinues(w: World, o: Options)
    requires Inv(w) && w.live.Some? && Possible(w, Fail(true)) && Covered(w, w.live.value)
    requires var w' := Next(w, Fail(true)); w'.live.None? && o.withSink && Resuming(w'.doc, o).Some?
    ensures var w' := Next(w, Fail(true)); Inv(w') && forall row :: Passed(w', row) ==> PresentElsewhere(w', o, row)
  {
    var w' := Next(w, Fail(true));
    assert Safe(w, Fail(true));
    hide Inv, Next, Covered, Launch, LiveEnabled;
    FailKeeps(w, true);
    ContinuingIsSafe(w', o);
    forall row | Passed(w', row) ensures PresentElsewhere(w', o, row) {
      NextRunStagesOverNothing(w', o, row);
    }
  }

  // ----- what a renumbered file replaces ------------------------------------------------------

  /** None of these rows is at or below the mark. */
  predicate AllAbove(table: seq<Cursor>, rows: set<nat>, mark: Option<Cursor>) {
    forall i :: i in rows && i < |table| ==> !AtOrBelow(table[i], mark)
  }

  /** The file at which a run that continues the record goes on. */
  function NextFile(doc: Option<SS.Doc>): Option<nat> {
    if doc.Some? && doc.value.resume.Some? then doc.value.resume.value.nextObjectSeq else None
  }

  /** The live run's record, if there is one: the rows at or below the
      watermark are in files before the next one. */
  predicate RecordFits(table: seq<Cursor>, doc: Option<SS.Doc>, used: set<nat>, l: Live) {
    l.run.withSink && l.run.runId in used ==>
      && NextFile(doc).Some? && CutsFit(l)
      && l.first <= NextFile(doc).value <= l.first + |l.files|
      && forall i :: 0 <= i < |table| && AtOrBelow(table[i], Mark(doc)) ==> i < FilesReach(l, NextFile(doc).value - l.first)
  }

  /** The table position after the first `n` files. */
  function FilesReach(l: Live, n: nat): nat
    requires n <= |l.files| && CutsFit(l)
  {
    assert n > 0 ==> l.files[n - 1].last <= |l.cuts|;
    Upto(l, End(l.files, n))
  }

  lemma FitsStays(table: seq<Cursor>, doc: Option<SS.Doc>, used: set<nat>, l: Live, l': Live)
    requires Grows(l, l') && FilesOk(l') && RecordFits(table, doc, used, l)
    ensures RecordFits(table, doc, used, l')
  {
    FilesFacts(l');
  }

  lemma AppendFits(w: World, more: seq<Cursor>, l: Live)
    requires MayFollow(w.table, more) && DocOk(w.table, w.doc, w.used) && RecordFits(w.table, w.doc, w.used, l)
    ensures RecordFits(w.table + more, w.doc, w.used, l)
  {
  }

  lemma LaunchFits(w: World, o: Options)
    requires Inv(w) && w.live.None?
    ensures RecordFits(w.table, w.doc, Reopened(w, o), Launch(w, o))
  {
    hide RowsHeld;
    RowsBelowIs(w.table, Mark(w.doc));
    var l := Launch(w, o);
    assert FilesReach(l, 0) == l.base;
  }

  /** A record written for a checkpoint at or below the delivered prefix fits. */
  lemma StoredFits(w: World, m: Live, c: Checkpoint, u: nat)
    requires FilesOk(m) && PrefixOk(m, m.sup.delivered) && NumberingOk(w.doc, w.used, m) && c.token.None?
    requires m.run.withSink ==> u <= Upto(m, Min(End(m.files, m.sup.delivered.objects), |m.cuts|))
    requires forall i :: 0 <= i < |w.table| && AtOrBelow(w.table[i], c.cursor) ==> i < u
    ensures RecordFits(w.table, Some(Unfinished(m, c)), w.used + {m.run.runId}, m)
  {
    UnfinishedRecord(w, m, c);
    FilesFacts(m);
    hide SS.RecordFor;
  }

  lemma PersistFits(w: World, l: Live)
    requires LiveOk(w, l) && RecordFits(w.table, w.doc, w.used, l)
    ensures var w' := Persisted(w, l.run.runId, SS.MaybePersist(l.run, l.sup));
            RecordFits(w'.table, w'.doc, w'.used, l.(sup := SS.MaybePersist(l.run, l.sup).state))
  {
    hide SourceOk, CheckpointsOk, FilesOk, CommitsOk, ObjectsOk, PrefixesOk, NumberingOk, SS.RecordFor, SS.SafeCheckpoint, SS.Frontier,
      CheckpointOk, PrefixOk, RecordFits;
    var act := SS.MaybePersist(l.run, l.sup);
    var l' := l.(sup := act.state);
    SupervisorFrame(w.table, w.target, l, l');
    if act.store.Some? {
      var c := SS.SafeCheckpoint(l.sup.at, SS.Frontier(l.run, l.sup)).value;
      SafeIsOk(w.table, l, w.doc, SS.Frontier(l.run, l.sup));
      DeliveredIsOk(l);
      FrontierFits(w, l, c);
      FitsStays(w.table, Some(Unfinished(l, c)), w.used + {l.run.runId}, l, l');
    } else {
      FitsStays(w.table, w.doc, w.used, l, l');
    }
  }

  lemma FrontierFits(w: World, m: Live, c: Checkpoint)
    requires SourceOk(w.table, m) && FilesOk(m) && PrefixOk(m, m.sup.delivered) && NumberingOk(w.doc, w.used, m)
    requires CheckpointOk(w.table, m, c) && c.batchSeq <= SS.Frontier(m.run, m.sup)
    ensures RecordFits(w.table, Some(Unfinished(m, c)), w.used + {m.run.runId}, m)
  {
    var u := Upto(m, c.batchSeq);
    CheckpointRows(w.table, m, c);
    SinkFrontier(m);
    if m.run.withSink {
      FilesFacts(m);
      UptoGrows(w.table, m, c.batchSeq, m.sup.delivered.through);
    }
    hide SourceOk, CheckpointOk, NumberingOk, SS.Frontier;
    StoredFits(w, m, c, u);
  }

  lemma StepFits(w: World, s: Step)
    requires Inv(w) && Enabled(w, s) && (w.live.Some? ==> RecordFits(w.table, w.doc, w.used, w.live.value))
    ensures var w' := Next(w, s); w'.live.Some? ==> RecordFits(w'.table, w'.doc, w'.used, w'.live.value)
  {
    hide RowsHeld, SourceOk, CheckpointsOk, CommitsOk, ObjectsOk, PrefixesOk, NumberingOk, RecordFits, DocOk, FilesOk, Grows,
      SS.MaybePersist, SS.Absorb, SS.Flush, PrefixOf, WatermarkNow, FileRows, Launch, AllDelivered, Covered;
    match s {
      case Append(more) => if w.live.Some? { AppendFits(w, more, w.live.value); }
      case Start(o) => LaunchFits(w, o);
      case ReceiveCheckpoint =>
        ReceiveCheckpointAbsorbs(w, w.live.value);
        ReceivedFits(w, w.live.value.(checkpoints := w.live.value.checkpoints[1..],
                                      sup := SS.Absorb(w.live.value.sup, SS.Reported(w.live.value.checkpoints[0]))));
      case ReceiveCommit =>
        ReceiveCommitAbsorbs(w, w.live.value);
        ReceivedFits(w, w.live.value.(commits := w.live.value.commits[1..],
                                      sup := SS.Absorb(w.live.value.sup, SS.Committed(w.live.value.commits[0]))));
      case ReceivePrefix =>
        ReceivePrefixAbsorbs(w, w.live.value);
        ReceivedFits(w, w.live.value.(prefixes := w.live.value.prefixes[1..],
                                      sup := SS.Absorb(w.live.value.sup, SS.Prefix(w.live.value.prefixes[0]))));
      case Fail(_) =>
      case Succeed =>
      case Crash =>
      case _ =>
        StepKeeps(w, s);
        StepGrows(w, s);
        FitsStays(w.table, w.doc, w.used, w.live.value, Next(w, s).live.value);
    }
  }

  lemma ReceivedFits(w: World, l1: Live)
    requires w.live.Some? && LiveOk(w, l1) && RecordFits(w.table, w.doc, w.used, w.live.value)
    requires l1 == w.live.value.(checkpoints := l1.checkpoints, commits := l1.commits, prefixes := l1.prefixes, sup := l1.sup)
    ensures var w' := Persisted(w, l1.run.runId, SS.MaybePersist(l1.run, l1.sup));
            RecordFits(w'.table, w'.doc, w'.used, l1.(sup := SS.MaybePersist(l1.run, l1.sup).state))
  {
    assert Grows(w.live.value, l1);
    hide SS.MaybePersist, RecordFits, Grows, SourceOk, CheckpointsOk, CommitsOk, ObjectsOk, PrefixesOk, NumberingOk, FilesOk;
    FitsStays(w.table, w.doc, w.used, w.live.value, l1);
    PersistFits(w, l1);
  }

  /** Until the supervisor hears of it, what source, destination and sink do only adds to the run. */
  lemma StepGrows(w: World, s: Step)
    requires Possible(w, s) && w.live.Some?
    requires s.NextBatch? || s.EndStream? || s.Report? || s.Write? || s.Announce? || s.Commit? || s.Arrive? || s.Upload? || s.Ack?
    ensures var w' := Next(w, s);
            && w'.table == w.table && w'.doc == w.doc && w'.used == w.used && w'.live.Some?
            && Grows(w.live.value, w'.live.value)
  {
    hide PrefixOf, WatermarkNow, FileRows, AllDelivered, SS.OnEvent, SS.Flush;
    if s.Ack? {
      AckGrows(w, w.live.value, s.file);
    }
  }

  lemma AckGrows(w: World, l: Live, k: nat)
    requires k < l.arrived <= |l.files| && CutsFit(l)
    ensures Acked(w, l, k).live.Some? && Grows(l, Acked(w, l, k).live.value)
  {
    hide PrefixOf, FileRows;
  }

  predicate LiveFits(w: World) {
    w.live.Some? ==> RecordFits(w.table, w.doc, w.used, w.live.value)
  }

  lemma {:induction false} RunFits(w: World, steps: seq<Step>)
    requires Inv(w) && LiveFits(w) && History(w, steps)
    ensures Inv(Run(w, steps).value) && LiveFits(Run(w, steps).value)
    decreases |steps|
  {
    hide Inv, Safe, Possible, Next;
    if steps != [] {
      StepKeeps(w, steps[0]);
      StepFits(w, steps[0]);
      RunFits(Next(w, steps[0]), steps[1..]);
    }
  }

  /** Where the record fits, a file staged at or beyond the next one holds only
      rows above the watermark. */
  lemma StagedBeyondIsAbove(w: World, l: Live, doc: Option<SS.Doc>, used: set<nat>, p: Path)
    requires SourceOk(w.table, l) && FilesOk(l) && ObjectsOk(w.target, l) && RecordFits(w.table, doc, used, l)
    requires p in l.staged && l.run.withSink && l.run.runId in used && NextFile(doc).value <= p
    ensures Key(l.run.runId, p) in w.target && AllAbove(w.table, w.target[Key(l.run.runId, p)], Mark(doc))
  {
    assert StagedOk(w.target, l, p);
    var n := NextFile(doc).value - l.first;
    FilesFacts(l);
    SourceAscends(w.table, l);
    EndsAscend(l, n, p - l.first);
  }

  /** The flush of a failed run writes a record that fits, or none. */
  lemma FlushFits(w: World, sinkDone: bool)
    requires Inv(w) && Enabled(w, Fail(sinkDone)) && LiveFits(w)
    ensures var l, w' := w.live.value, Next(w, Fail(sinkDone));
            RecordFits(w.table, w'.doc, w'.used, if l.run.withSink then Drained(l) else l)
  {
    hide RowsHeld, DocOk, SourceOk, CheckpointsOk, FilesOk, CommitsOk, ObjectsOk, PrefixesOk, NumberingOk, Grows, RecordFits,
      SS.RecordFor, SS.Frontier, SS.SafeCheckpoint, SS.Drain, PrefixOk, AllDelivered, DeliveredThrough, RowsBelow;
    var l := w.live.value;
    var gate := if l.run.withSink then Some(sinkDone) else None;
    var act := SS.Flush(l.run, l.sup, gate, l.prefixes, false);
    var m := if l.run.withSink then Drained(l) else l;
    DrainedIsOk(w, l);
    if act.store.Some? {
      var frontier := if l.run.withSink && !sinkDone then m.sup.delivered.through else m.sup.durable;
      var c := SS.SafeCheckpoint(m.sup.at, frontier).value;
      DeliveredIsOk(l);
      SafeIsOk(w.table, m, w.doc, frontier);
      if sinkDone {
        CoveredFits(w, m, c);
      } else {
        assert c.batchSeq <= SS.Frontier(m.run, m.sup) by {
          PlainFrontier(l);
          SinkFrontier(m);
        }
        FrontierFits(w, m, c);
      }
      assert act.store == Some(Unfinished(m, c));
    } else {
      SupervisorFrame(w.table, w.target, l, m);
      FitsStays(w.table, w.doc, w.used, l, m);
    }
  }

  lemma CoveredFits(w: World, m: Live, c: Checkpoint)
    requires FilesOk(m) && PrefixOk(m, m.sup.delivered) && NumberingOk(w.doc, w.used, m) && Ascending(w.table)
    requires CheckpointOk(w.table, m, c) && End(m.files, m.sup.delivered.objects) <= |m.cuts|
    requires RowsBelow(w.table, c.cursor) <= Upto(m, End(m.files, m.sup.delivered.objects))
    ensures RecordFits(w.table, Some(Unfinished(m, c)), w.used + {m.run.runId}, m)
  {
    RowsBelowIs(w.table, c.cursor);
    CheckpointHasNoToken(w.table, m, c);
    hide CheckpointOk, NumberingOk, FilesOk, PrefixOk;
    StoredFits(w, m, c, RowsBelow(w.table, c.cursor));
  }

  /** The run's record is in the document. */
  predicate Recorded(doc: Option<SS.Doc>, l: Live) {
    doc.Some? && doc.value.resume.Some? && doc.value.resume.value.runId == l.run.runId && NextFile(doc).Some?
  }

  /** What an attempt itself left at or beyond the file its successor goes on
      with holds only rows above the watermark: replacing it loses no row that
      will not be read again. */
  lemma OwnFilesAreAbove(w: World, s: Step, p: Path)
    requires Inv(w) && LiveFits(w) && Enabled(w, s) && w.live.Some? && (s.Fail? || s.Crash?)
    requires var l, w' := w.live.value, Next(w, s); Recorded(w'.doc, l) && p in l.staged && NextFile(w'.doc).value <= p
    ensures var key, w' := Key(w.live.value.run.runId, p), Next(w, s);
            key in w'.target && AllAbove(w'.table, w'.target[key], Mark(w'.doc))
  {
    var l := w.live.value;
    var w' := Next(w, s);
    StagedNeedsSink(w.target, l, p);
    StepKeeps(w, s);
    RecordIsUsed(w', l);
    EndOfRun(w, s);
    hide Inv, Next, SS.Flush, Safe, Possible;
    if s.Fail? {
      FlushFits(w, s.sinkDone);
      hide RecordFits, RowsHeld, SourceOk, CheckpointsOk, FilesOk, CommitsOk, ObjectsOk, PrefixesOk, NumberingOk;
      LiveIsOk(w);
      DrainedIsOk(w, l);
      StagedBeyondIsAbove(w, Drained(l), w'.doc, w'.used, p);
    } else {
      hide RecordFits, RowsHeld, SourceOk, CheckpointsOk, FilesOk, CommitsOk, ObjectsOk, PrefixesOk, NumberingOk;
      LiveIsOk(w);
      StagedBeyondIsAbove(w, l, w'.doc, w'.used, p);
    }
  }

  lemma LiveIsOk(w: World)
    requires Inv(w) && w.live.Some?
    ensures LiveOk(w, w.live.value)
  {
  }

  lemma StagedNeedsSink(target: map<Key, set<nat>>, l: Live, p: Path)
    requires FilesOk(l) && ObjectsOk(target, l) && p in l.staged
    ensures l.run.withSink && Key(l.run.runId, p) in target
  {
    assert StagedOk(target, l, p);
  }

  lemma RecordIsUsed(w: World, l: Live)
    requires Inv(w) && Recorded(w.doc, l)
    ensures l.run.runId in w.used
  {
    hide RowsHeld, LiveOk;
  }

  /** The end of a run leaves table and objects alone. */
  lemma EndOfRun(w: World, s: Step)
    requires Possible(w, s) && w.live.Some? && (s.Fail? || s.Crash?)
    ensures var w' := Next(w, s);
            && w'.table == w.table && w'.target == w.target && w'.landed == w.landed && w'.live.None?
            && (s.Crash? ==> w'.doc == w.doc && w'.used == w.used)
  {
    hide SS.Flush, SS.OnEvent, PrefixOf, FileRows, WatermarkNow, AllDelivered;
  }

  /** Every object at or beyond the next file of the recorded run holds only
      rows above the watermark, but for those numbered in `except`. */
  predicate NumbersAbove(w: World, except: set<Path>)
    requires w.doc.Some? && w.doc.value.resume.Some? && NextFile(w.doc).Some?
  {
    forall key :: key in w.target && key.run == w.doc.value.resume.value.runId && NextFile(w.doc).value <= key.num && key.num !in except
                  ==> AllAbove(w.table, w.target[key], Mark(w.doc))
  }

  /** After any history: when an attempt ends with a record, every object its
      successor may replace holds only rows above the watermark, if and only if
      those the attempt did not stage itself do. */
  lemma RenumberedFilesAreAboveIff(table: seq<Cursor>, landed: set<nat>, target: map<Key, set<nat>>, steps: seq<Step>, s: Step)
    requires Ascending(table) && History(World(table, landed, target, None, {}, None), steps) && (s.Fail? || s.Crash?)
    requires var w := Run(World(table, landed, target, None, {}, None), steps).value;
             Enabled(w, s) && w.live.Some? && Recorded(Next(w, s).doc, w.live.value)
    ensures var w := Run(World(table, landed, target, None, {}, None), steps).value;
            var w' := Next(w, s);
            NumbersAbove(w', {}) <==> NumbersAbove(w', w.live.value.staged)
  {
    var w0 := World(table, landed, target, None, {}, None);
    InitInv(table, landed, target);
    RunFits(w0, steps);
    var w := Run(w0, steps).value;
    var w', l := Next(w, s), w.live.value;
    hide Inv, LiveFits, Run, SafeRun, Enabled, Possible, Next, AllAbove;
    if NumbersAbove(w', l.staged) {
      forall key | key in w'.target && key.run == l.run.runId && NextFile(w'.doc).value <= key.num
        ensures AllAbove(w'.table, w'.target[key], Mark(w'.doc))
      {
        if key.num in l.staged {
          OwnFilesAreAbove(w, s, key.num);
          assert Key(l.run.runId, key.num) == key;
        }
      }
    }
  }
}
