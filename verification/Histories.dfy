/**
 Histories that end well or badly, each possible step by step from the first
 run on: a run that succeeds, an attempt retried under its own id, and the three
 ways in which file numbers taken up again meet rows that were passed.

 The pieces are what a run does between two of its decisions: stage a file,
 report a watermark, have a file acknowledged, fail with what was delivered.
 A piece is possible from every world of its kind and names the world it leads
 to, and a history is pieces put one after the other, from the first run on. So each of them is shown
 for every table or every row it can be about, except the one that needs three
 files, which has a table of its own.
 */
module Histories {
  import opened Wrappers
  import opened Source
  import opened SinkLedger
  import SS = StateSupervisor
  import TSC = TieSafeCursor
  import opened Pipeline
  import opened Resume
  import opened PipelineSteps
  import opened GapFree
  import opened Renumbering

  function Empty(table: seq<Cursor>): World { World(table, {}, map[], None, {}, None) }

  // ----- the pieces ------------------------------------------------------------------

  /** The source reports the watermark `v` at its last batch. */
  function WithReport(l: Live, v: Cursor): Live {
    l.(reported := Some(v), checkpoints := l.checkpoints + [Checkpoint(|l.cuts|, Some(v), None)])
  }

  lemma Reports(w: World, v: Cursor) returns (steps: seq<Step>)
    requires w.live.Some? && w.live.value.base <= Upto(w.live.value, |w.live.value.cuts|) <= |w.table|
    requires 0 < |w.live.value.cuts| && WatermarkNow(w.table, w.live.value) == Some(v) && w.live.value.reported != Some(v)
    ensures Reaches(w, steps, w.(live := Some(WithReport(w.live.value, v)))) && SafeRun(w, steps)
  {
    steps := [Report];
    hide WatermarkNow;
    OneStep(w, Report);
  }

  /** The source ends its stream and reports the last row. */
  lemma EndsAndReports(w: World) returns (steps: seq<Step>)
    requires w.live.Some?
    requires var l := w.live.value; !l.ended && l.base < l.limit == Upto(l, |l.cuts|) == |w.table| && l.reported.None?
    ensures Reaches(w, steps, w.(live := Some(WithReport(w.live.value.(ended := true), w.table[|w.table| - 1])))) && SafeRun(w, steps)
  {
    var l := w.live.value;
    var w1 := w.(live := Some(l.(ended := true)));
    OneStep(w, EndStream);
    var b := Reports(w1, w.table[|w.table| - 1]);
    hide Reaches, SafeRun;
    Then(w, [EndStream], w1, b, w1.(live := Some(WithReport(l.(ended := true), w.table[|w.table| - 1]))));
    steps := [EndStream] + b;
  }

  /** The run once its first file was acknowledged. */
  function WithFirstAck(l: Live): Live
    requires l.files != []
  {
    l.(acked := {l.first}, staged := l.staged + {l.first},
       through := if l.files[0].ranged then l.files[0].last else 0,
       prefixes := if l.files[0].ranged then [Delivered(l.files[0].last, 1)] else [])
  }

  lemma FirstPrefix(l: Live)
    requires l.arrived == |l.files| > 0 && l.acked == {l.first} && (l.files[0].ranged ==> l.files[0].last > 0)
    ensures PrefixOf(Emitted(l), Ranges(l), l.acked) == if l.files[0].ranged then Delivered(l.files[0].last, 1) else Delivered(0, 0)
  {
    var n := if l.files[0].ranged then 1 else 0;
    assert Emitted(l)[0] == l.first;
    assert |l.files| > 1 ==> Emitted(l)[1] !in l.acked;
    LongestRunIsUnique(Emitted(l), Ranges(l), l.acked, n);
  }

  lemma AcksFirst(w: World) returns (steps: seq<Step>)
    requires w.live.Some? && w.live.value.files != []
    requires var l := w.live.value;
             && l.arrived == |l.files| && CutsFit(l) && l.acked == {} && l.prefixes == [] && l.through == 0 && l.files[0].last > 0
    ensures var l := w.live.value;
            Reaches(w, steps, w.(target := w.target[Key(l.run.runId, l.first) := FileRows(l, 0)], live := Some(WithFirstAck(l))))
    ensures SafeRun(w, steps)
  {
    var l := w.live.value;
    var m := l.(acked := l.acked + {l.first + 0}, staged := l.staged + {l.first + 0});
    assert m.acked == {l.first};
    FirstPrefix(m);
    hide PrefixOf, FileRows, Emitted, Ranges;
    steps := [Ack(0)];
    OneStep(w, Ack(0));
    assert Next(w, Ack(0)) == Acked(w, l, 0);
    assert Acked(w, l, 0).live.value == WithFirstAck(l);
  }

  /** A run that was told of its only checkpoint and fails with the prefix `d` delivered. */
  predicate Failing(l: Live, c: Checkpoint, d: Delivered) {
    && l.run.withSink && l.run.interval == 0 && l.run.resume.Some? && l.sup == SS.Fresh
    && l.checkpoints == [c] && l.prefixes == [d] && c.token.None? && 0 < c.batchSeq <= d.through
    && l.first == (if l.run.resume.value.firstObjectSeq.Some? then l.run.resume.value.firstObjectSeq.value else 1)
  }

  predicate Leaves(w: World, w': World, l: Live, cursor: Option<Cursor>, next: nat) {
    && w' == w.(doc := w'.doc, used := w.used + {l.run.runId}, live := None)
    && w'.doc.Some? && w'.doc.value.cursor == cursor && w'.doc.value.resume.Some?
    && w'.doc.value.resume.value.runId == l.run.runId && w'.doc.value.resume.value.nextObjectSeq == Some(next)
    && l.run.resume.Some? && w'.doc.value.resume.value.configHash == l.run.resume.value.configHash
    && w'.doc.value.resume.value.token.None?
  }

  lemma OnlyCheckpoint(c: Checkpoint, frontier: nat)
    requires c.batchSeq <= frontier
    ensures SS.SafeCheckpoint(map[c.batchSeq := c], frontier) == Some(c)
  {
    assert c.batchSeq in map[c.batchSeq := c];
  }

  lemma FailsWithRecord(w: World, c: Checkpoint, d: Delivered) returns (steps: seq<Step>, w': World)
    requires w.live.Some? && Failing(w.live.value, c, d)
    ensures Reaches(w, steps, w') && SafeRun(w, steps) && Leaves(w, w', w.live.value, c.cursor, w.live.value.first + d.objects)
  {
    var l := w.live.value;
    var sup := SS.State(map[c.batchSeq := c], 0, Delivered(0, 0), 0, false);
    var w1 := w.(live := Some(l.(checkpoints := [], sup := sup)));
    OneStep(w, ReceiveCheckpoint);
    assert l.checkpoints[1..] == [] && SS.Absorb(l.sup, SS.Reported(c)) == sup;
    assert Next(w, ReceiveCheckpoint) == w1;
    assert SS.Drain(Delivered(0, 0), [d]) == d;
    OnlyCheckpoint(c, d.through);
    w' := Next(w1, Fail(false));
    OneStep(w1, Fail(false));
    hide Reaches, SafeRun, Next, Possible;
    Then(w, [ReceiveCheckpoint], w1, [Fail(false)], w');
    steps := [ReceiveCheckpoint] + [Fail(false)];
  }

  /** A run with a sink that has just been started, without a throttle. */
  predicate NewRun(w: World) {
    && w.live.Some?
    && var l := w.live.value;
       && Staging(l) && l.run.interval == 0 && l.run.resume.Some? && l.sup == SS.Fresh && l.limit == |w.table|
       && l.cuts == [] && l.reported.None? && l.written == 0 && l.files == [] && l.staged == {} && l.through == 0
       && l.checkpoints == [] && l.commits == [] && l.prefixes == []
       && l.first == (if l.run.resume.value.firstObjectSeq.Some? then l.run.resume.value.firstObjectSeq.value else 1)
  }

  lemma Starts(w: World, o: Options)
    requires w.live.None? && o.withSink && o.interval == 0
    ensures Possible(w, Start(o)) && Reaches(w, [Start(o)], Next(w, Start(o))) && NewRun(Next(w, Start(o)))
    ensures Safe(w, Start(o)) ==> SafeRun(w, [Start(o)])
    ensures var l := Launch(w, o);
            && Next(w, Start(o)) == w.(used := Reopened(w, o), live := Some(l))
            && l.base == RowsBelow(w.table, Mark(w.doc)) && l.run.resume.value.configHash == o.configHash
  {
    LaunchStages(w, o);
    LaunchIsFresh(w, o);
    hide Safe, Staging;
    OneStep(w, Start(o));
  }

  lemma StagingFacts(l: Live)
    requires Staging(l)
    ensures l.acked == {} && l.run.withSink
  {
  }

  /** The run once it staged all rows in one file and its source ended. */
  function StagedAll(w: World, ranged: bool): Live
    requires w.live.Some? && w.table != []
  {
    var l := w.live.value;
    l.(cuts := [|w.table|], ended := true, reported := Some(w.table[|w.table| - 1]), written := 1, files := [File(1, ranged)], arrived := 1,
       checkpoints := [Checkpoint(1, Some(w.table[|w.table| - 1]), None)])
  }

  lemma StagesAll(w: World, ranged: bool) returns (steps: seq<Step>)
    requires NewRun(w) && w.live.value.base < |w.table|
    ensures Reaches(w, steps, w.(live := Some(StagedAll(w, ranged)))) && SafeRun(w, steps)
  {
    var l, v := w.live.value, w.table[|w.table| - 1];
    var n := |w.table| - l.base;
    var a := StageFile(w, n, ranged);
    var w1 := w.(live := Some(WithFile(l, n, ranged)));
    assert w1.live.value.cuts == [|w.table|] && w1.live.value.files == [File(1, ranged)];
    var b := EndsAndReports(w1);
    var l2 := WithReport(w1.live.value.(ended := true), v);
    assert l2.checkpoints == [Checkpoint(1, Some(v), None)];
    assert l2 == StagedAll(w, ranged);
    hide Reaches, SafeRun;
    Then(w, a, w1, b, w1.(live := Some(l2)));
    steps := a + b;
  }

  /** A whole attempt: it stages the rest of the table in one ranged file, has
      it acknowledged, and fails all the same. */
  lemma DeliversAndFails(w: World, o: Options) returns (steps: seq<Step>, w': World)
    requires w.live.None? && o.withSink && o.interval == 0 && Safe(w, Start(o)) && RowsBelow(w.table, Mark(w.doc)) < |w.table|
    ensures Reaches(w, steps, w') && SafeRun(w, steps)
    ensures var l := Launch(w, o);
            && w'.table == w.table && w'.landed == w.landed
            && w'.target == w.target[Key(l.run.runId, l.first) := Interval(l.base, |w.table|)]
            && Leaves(Next(w, Start(o)).(target := w'.target), w', l, Some(w.table[|w.table| - 1]), l.first + 1)
  {
    hide Launch, Next, Possible, Safe, Reaches, SafeRun, Staging, RowsBelow;
    Starts(w, o);
    var w0 := Next(w, Start(o));
    assert w0.table == w.table && w0.live.value.base < |w.table|;
    var a := StagesAll(w0, true);
    var l1 := StagedAll(w0, true);
    StagingFacts(w0.live.value);
    assert CutsFit(l1);
    var w1 := w0.(live := Some(l1));
    var b := AcksFirst(w1);
    var w2 := w1.(target := w1.target[Key(l1.run.runId, l1.first) := FileRows(l1, 0)], live := Some(WithFirstAck(l1)));
    var c: seq<Step>;
    c, w' := FailsWithRecord(w2, Checkpoint(1, Some(w.table[|w.table| - 1]), None), Delivered(1, 1));
    hide FileRows, NewRun;
    Then(w, [Start(o)], w0, a, w1);
    Then(w, [Start(o)] + a, w1, b, w2);
    Then(w, [Start(o)] + a + b, w2, c, w');
    steps := [Start(o)] + a + b + c;
  }

  lemma LaunchIsFresh(w: World, o: Options)
    ensures var l := Launch(w, o);
            && l == l.(sup := SS.Fresh, cuts := [], ended := false, reported := None, written := 0, files := [], arrived := 0,
                       staged := {}, acked := {}, through := 0, checkpoints := [], commits := [], prefixes := [])
            && l.limit == |w.table| && l.base == RowsBelow(w.table, Mark(w.doc))
            && l.run.withSink == o.withSink && l.run.interval == o.interval && l.run.resume.Some?
            && l.run.resume.value.configHash == o.configHash
            && l.first == (if l.run.resume.value.firstObjectSeq.Some? then l.run.resume.value.firstObjectSeq.value else 1)
  {
  }

  // ----- without a sink: success, and a retry under the same id ---------------------------

  /** The live run of a source whose only batch, the rest of the table, landed and was heard of. */
  predicate Landed(w: World, o: Options, table: seq<Cursor>) {
    && table != [] && w.table == table && w.doc.None? && w.used == {} && w.live.Some? && w.landed == Interval(0, |table|)
    && var l := w.live.value;
       && l.run == Launch(Empty(table), o).run && !l.run.withSink && l.ended && l.cuts == [|table|] && l.written == 1
       && l.checkpoints == [] && l.commits == [] && l.prefixes == []
       && l.sup == SS.State(map[1 := Checkpoint(1, Some(table[|table| - 1]), None)], 1, Delivered(0, 0), 0, false)
  }

  lemma LandsAll(table: seq<Cursor>, o: Options) returns (steps: seq<Step>, w': World)
    requires table != [] && !o.withSink && o.interval == 0
    ensures Reaches(Empty(table), steps, w') && SafeRun(Empty(table), steps) && Landed(w', o, table)
  {
    var w, l0 := Empty(table), Launch(Empty(table), o);
    var w0, v, n := Next(w, Start(o)), table[|table| - 1], |table|;
    assert Reopened(w, o) == {};
    OneStep(w, Start(o));
    LaunchIsFresh(w, o);
    hide Launch, Reaches, SafeRun;
    var w1 := w0.(live := Some(l0.(cuts := [n], written := 1)));
    var a := WritesOneBatch(w0, n);
    var b := EndsAndReports(w1);
    var w2 := w1.(live := Some(WithReport(w1.live.value.(ended := true), v)));
    var c: seq<Step>;
    c, w' := CommitsAndIsHeard(w2, n, v);
    Then(w, [Start(o)], w0, a, w1);
    Then(w, [Start(o)] + a, w1, b, w2);
    Then(w, [Start(o)] + a + b, w2, c, w');
    steps := [Start(o)] + a + b + c;
  }

  lemma WritesOneBatch(w: World, n: nat) returns (steps: seq<Step>)
    requires w.live.Some? && var l := w.live.value; l.cuts == [] && l.written == 0 && !l.ended && l.base == 0 && n <= l.limit
    ensures Reaches(w, steps, w.(live := Some(w.live.value.(cuts := [n], written := 1)))) && SafeRun(w, steps)
  {
    var w1 := Next(w, NextBatch(n));
    assert w1.live.value.cuts == [n];
    assert Next(w1, Step.Write) == w.(live := Some(w.live.value.(cuts := [n], written := 1)));
    OneStep(w, NextBatch(n));
    OneStep(w1, Step.Write);
    hide Reaches, SafeRun;
    Then(w, [NextBatch(n)], w1, [Step.Write], Next(w1, Step.Write));
    steps := [NextBatch(n)] + [Step.Write];
  }

  lemma CommitsAndIsHeard(w: World, n: nat, v: Cursor) returns (steps: seq<Step>, w': World)
    requires w.live.Some? && w.landed == {}
    requires var l := w.live.value;
             && !l.run.withSink && l.run.interval == 0 && l.sup == SS.Fresh && l.base == 0 && l.cuts == [n] && l.written == 1
             && l.checkpoints == [Checkpoint(1, Some(v), None)] && l.commits == []
    ensures Reaches(w, steps, w') && SafeRun(w, steps)
    ensures w' == w.(landed := Interval(0, n), live := Some(w.live.value.(checkpoints := [],
                       sup := SS.State(map[1 := Checkpoint(1, Some(v), None)], 1, Delivered(0, 0), 0, false))))
  {
    var w1 := Next(w, Step.Commit(1));
    assert w1.landed == Interval(0, n);
    var w2 := Next(w1, ReceiveCheckpoint);
    assert w2.live.value.checkpoints == [] && w2.live.value.commits == [1];
    w' := Next(w2, ReceiveCommit);
    assert w'.live.value.commits == [];
    assert SS.Fresh.at[1 := Checkpoint(1, Some(v), None)] == map[1 := Checkpoint(1, Some(v), None)];
    OneStep(w, Step.Commit(1));
    OneStep(w1, ReceiveCheckpoint);
    OneStep(w2, ReceiveCommit);
    hide Reaches, SafeRun;
    Then(w, [Step.Commit(1)], w1, [ReceiveCheckpoint], w2);
    Then(w, [Step.Commit(1)] + [ReceiveCheckpoint], w2, [ReceiveCommit], w');
    steps := [Step.Commit(1)] + [ReceiveCheckpoint] + [ReceiveCommit];
  }

  /** Whatever the table, a run without a sink may land all of it, store its last
      row's cursor and end. */
  lemma AnOrdinaryHistory(table: seq<Cursor>, o: Options) returns (steps: seq<Step>)
    requires table != [] && !o.withSink && o.interval == 0
    ensures History(Empty(table), steps)
    ensures var w := Run(Empty(table), steps).value;
            w.live.None? && Mark(w.doc) == Some(table[|table| - 1]) && forall i :: 0 <= i < |table| ==> i in w.landed
  {
    var a, w1 := LandsAll(table, o);
    OnlyCheckpoint(w1.live.value.sup.at[1], 1);
    OneStep(w1, Succeed);
    Then(Empty(table), a, w1, [Succeed], Next(w1, Succeed));
    steps := a + [Succeed];
  }

  /** And one that stored its watermark and failed may be retried under its own
      id, although a document was stored under it: without a sink nothing is
      staged over. */
  lemma ARetryWithoutASink(table: seq<Cursor>, o: Options) returns (steps: seq<Step>)
    requires table != [] && !o.withSink && o.interval == 0
    ensures History(Empty(table), steps) && History(Empty(table), steps + [Start(o)])
    ensures var w := Run(Empty(table), steps).value;
            o.runId in w.used && Resuming(w.doc, o).None? && Mark(w.doc) == Some(table[|table| - 1])
  {
    var a, w1 := LandsAll(table, o);
    OnlyCheckpoint(w1.live.value.sup.at[1], 1);
    var w2 := Next(w1, Fail(false));
    OneStep(w1, Fail(false));
    Then(Empty(table), a, w1, [Fail(false)], w2);
    steps := a + [Fail(false)];
    assert Reopened(w2, o) == w2.used;
    forall i | 0 <= i < |table| ensures HeldIn(w2.landed, w2.target, w2.doc, w2.used, i) {}
    OneStep(w2, Start(o));
    Then(Empty(table), steps, w2, [Start(o)], Next(w2, Start(o)));
  }

  // ----- a run id used before ---------------------------------------------------------------

  lemma FirstStartIsSafe(table: seq<Cursor>, o: Options)
    ensures Safe(Empty(table), Start(o)) && RowsBelow(table, Mark(Empty(table).doc)) == 0
  {
  }

  /** Another run continues the recorded one; nothing is left to read, and it succeeds. */
  lemma ContinuesAndSucceeds(w: World, o: Options) returns (steps: seq<Step>, w': World)
    requires w.live.None? && o.withSink && Resuming(w.doc, o).Some? && w.doc.value.cursor.Some?
    requires w.doc.value.resume.value.token.None?
    requires RowsBelow(w.table, Mark(w.doc)) == |w.table|
    ensures Reaches(w, steps, w')
    ensures var run := w.doc.value.resume.value.runId;
            w' == w.(doc := Some(SS.Doc(w.doc.value.cursor, run, None)), used := w.used + {run})
  {
    var w0 := Next(w, Start(o));
    OneStep(w, Start(o));
    ContinuesAt(w, o);
    LaunchIsFresh(w, o);
    LaunchStages(w, o);
    assert Launch(w, o).run.prior == w.doc;
    hide Launch, Reaches;
    var w1 := Next(w0, EndStream);
    OneStep(w0, EndStream);
    assert SS.SafeCheckpoint(map[], 0).None?;
    w' := Next(w1, Succeed);
    OneStep(w1, Succeed);
    hide Next, Possible;
    Then(w, [Start(o)], w0, [EndStream], w1);
    Then(w, [Start(o)] + [EndStream], w1, [Succeed], w');
    steps := [Start(o)] + [EndStream] + [Succeed];
  }

  /** An attempt fails with a record, another process continues its run and
      finishes it, and the first process retries under the old id: it numbers
      its files from 1 again, and its upload replaces a row it will not read. */
  lemma ReusedRunIdLosesARow(table: seq<Cursor>, o: Options, other: Options, row: nat) returns (steps: seq<Step>)
    requires Ascending(table) && row < |table| && o.withSink && o.interval == 0
    requires other.withSink && other.mayResume && other.configHash == o.configHash
    ensures Run(Empty(table), steps).Some?
    ensures var w := Run(Empty(table), steps).value; Passed(w, row) && !Present(w, row)
  {
    var w0 := Empty(table);
    FirstStartIsSafe(table, o);
    var a, w1 := DeliversAndFails(w0, o);
    assert table[row] <= table[|table| - 1] && RowsBelow(w1.table, Mark(w1.doc)) == |table|;
    var b, w2 := ContinuesAndSucceeds(w1, other);
    Then(w0, a, w1, b, w2);
    assert w2.target == map[Key(o.runId, 1) := Interval(0, |table|)];
    hide Reaches, Leaves;
    var c := RetryLosesARow(w2, o, row);
    Then(w0, a + b, w2, c, Run(w2, c).value) by { RunReaches(w2, c); }
    steps := a + b + c;
    ReachesRun(w0, steps, Run(w2, c).value);
  }

  lemma RunReaches(w: World, steps: seq<Step>)
    requires Run(w, steps).Some?
    ensures Reaches(w, steps, Run(w, steps).value)
  {
  }

  lemma ReachesRun(w: World, steps: seq<Step>, w': World)
    requires Reaches(w, steps, w')
    ensures Run(w, steps) == Some(w')
  {
  }

  /** A run that reopens the id which alone holds the row. */
  lemma RetryLosesARow(w: World, o: Options, row: nat) returns (steps: seq<Step>)
    requires w.live.None? && o.withSink && Resuming(w.doc, o).None? && Passed(w, row) && row !in w.landed
    requires forall key :: key in w.target ==> key.run == o.runId && 1 <= key.num
    ensures Run(w, steps).Some?
    ensures var w' := Run(w, steps).value; Passed(w', row) && !Present(w', row)
  {
    assert Launch(w, o).run.runId == o.runId && Launch(w, o).first == 1;
    var c := OverwritesARow(w, o, row);
    RunCons(w, Start(o), c);
    steps := [Start(o)] + c;
  }

  lemma RunCons(w: World, s: Step, rest: seq<Step>)
    requires Possible(w, s)
    ensures Run(w, [s] + rest) == Run(Next(w, s), rest)
  {
    hide Next, Possible;
    assert ([s] + rest)[1..] == rest;
  }

  // ----- a fully delivered failure without ranges ---------------------------------------------

  /** The attempt of `DeliversAndFails`, but its file carries no range and the
      failure comes after the sink delivered it: the first file is recorded as
      the next one. */
  lemma DeliversWithoutRange(table: seq<Cursor>, o: Options) returns (steps: seq<Step>, w': World)
    requires table != [] && o.withSink && o.interval == 0
    ensures Reaches(Empty(table), steps, w')
    ensures var w0 := Next(Empty(table), Start(o));
            && w'.table == table && w'.landed == {} && w'.target == map[Key(o.runId, 1) := Interval(0, |table|)]
            && Leaves(w0.(target := w'.target), w', Launch(Empty(table), o), Some(table[|table| - 1]), 1)
  {
    var w, v := Empty(table), table[|table| - 1];
    hide Next, Possible, Safe, Reaches, SafeRun, Staging;
    Starts(w, o);
    var w0 := Next(w, Start(o));
    assert w0.live.value.run.runId == o.runId && w0.live.value.first == 1 && w0.live.value.base == 0;
    hide Launch;
    var a := StagesAll(w0, false);
    var l1 := StagedAll(w0, false);
    var w1 := w0.(live := Some(l1));
    var b := AcksFirst(w1);
    assert FileRows(l1, 0) == Interval(0, |table|);
    var w2 := w1.(target := w1.target[Key(l1.run.runId, l1.first) := FileRows(l1, 0)], live := Some(WithFirstAck(l1)));
    hide FileRows, NewRun;
    var c: seq<Step>;
    c, w' := FailsDelivered(w2, Checkpoint(1, Some(v), None));
    Then(w, [Start(o)], w0, a, w1);
    Then(w, [Start(o)] + a, w1, b, w2);
    Then(w, [Start(o)] + a + b, w2, c, w');
    steps := [Start(o)] + a + b + c;
  }

  /** A run whose only file was delivered without a range, committed, and failed. */
  lemma FailsDelivered(w: World, c: Checkpoint) returns (steps: seq<Step>, w': World)
    requires w.live.Some? && var l := w.live.value;
             && l.run.withSink && l.run.interval == 0 && l.run.resume.Some? && l.sup == SS.Fresh && l.first == 1
             && l.run.resume.value.firstObjectSeq.None? && l.checkpoints == [c] && l.commits == [] && l.prefixes == []
             && c.token.None? && c.batchSeq == 1 == l.written == |l.cuts| && l.files == [File(1, false)]
             && l.arrived == 1 && l.acked == {1}
    ensures Reaches(w, steps, w') && Leaves(w, w', w.live.value, c.cursor, 1)
  {
    var l := w.live.value;
    var w1 := Next(w, ReceiveCheckpoint);
    var w2 := Next(w1, Step.Commit(1));
    var w3 := Next(w2, ReceiveCommit);
    assert l.checkpoints[1..] == [] && SS.Fresh.at[1 := c] == map[1 := c];
    assert w3.live.value.commits == [] && w3.live.value.sup == SS.State(map[1 := c], 1, Delivered(0, 0), 0, false);
    assert AllDelivered(w3.live.value);
    OnlyCheckpoint(c, 1);
    assert SS.Drain(Delivered(0, 0), []) == Delivered(0, 0);
    w' := Next(w3, Fail(true));
    OneStep(w, ReceiveCheckpoint);
    OneStep(w1, Step.Commit(1));
    OneStep(w2, ReceiveCommit);
    OneStep(w3, Fail(true));
    hide Reaches, SafeRun, Next, Possible;
    Then(w, [ReceiveCheckpoint], w1, [Step.Commit(1)], w2);
    Then(w2, [ReceiveCommit], w3, [Fail(true)], w');
    Then(w, [ReceiveCheckpoint] + [Step.Commit(1)], w2, [ReceiveCommit] + [Fail(true)], w');
    steps := [ReceiveCheckpoint] + [Step.Commit(1)] + ([ReceiveCommit] + [Fail(true)]);
  }

  /** The attempt after it continues at the same file and uploads over rows it
      will not read. */
  lemma RangelessFailureLosesARow(table: seq<Cursor>, o: Options, row: nat) returns (steps: seq<Step>)
    requires Ascending(table) && row < |table| && o.withSink && o.interval == 0
    ensures Run(Empty(table), steps).Some?
    ensures var w := Run(Empty(table), steps).value; Passed(w, row) && !Present(w, row)
  {
    var a, w1 := DeliversWithoutRange(table, o);
    ContinuesAt(w1, o);
    var b := OverwritesARow(w1, o, row);
    var w2 := Next(w1, Start(o));
    OneStep(w1, Start(o));
    var w3 := Run(w2, b).value;
    assert table[row] <= table[|table| - 1];
    hide Next, Possible, Launch, Present;
    Then(Empty(table), a, w1, [Start(o)], w2);
    Then(Empty(table), a + [Start(o)], w2, b, w3);
    steps := a + [Start(o)] + b;
  }

  // ----- what an earlier attempt left ------------------------------------------------------------

  const TABLE: seq<Cursor> := [5, 10, 20, 30]

  /** The first attempt: files 1, 2 and 3 hold the rows of 5 and 10, of 20, and
      of 30; 1 and 3 are delivered. Its watermark is 5, its next file 2. */
  lemma LeavesAFileBehind(o: Options) returns (steps: seq<Step>, w': World)
    requires o.withSink && o.interval == 0
    ensures Reaches(Empty(TABLE), steps, w') && SafeRun(Empty(TABLE), steps)
    ensures var w0 := Next(Empty(TABLE), Start(o));
            && w'.table == TABLE && Key(o.runId, 3) in w'.target && w'.target[Key(o.runId, 3)] == {3}
            && Leaves(w0.(target := w'.target), w', Launch(Empty(TABLE), o), Some(5), 2)
  {
    var w := Empty(TABLE);
    hide Next, Possible, Safe, Reaches, SafeRun, Staging;
    FirstStartIsSafe(TABLE, o);
    Starts(w, o);
    var w0 := Next(w, Start(o));
    assert w0.live.value.run.runId == o.runId && w0.live.value.first == 1 && w0.live.value.base == 0;
    hide Launch;
    var a, w1 := StagesThree(w0);
    var b: seq<Step>;
    b, w' := DeliversFirstAndThird(w1);
    hide NewRun, ThreeFiles;
    Then(w, [Start(o)], w0, a, w1);
    Then(w, [Start(o)] + a, w1, b, w');
    steps := [Start(o)] + a + b;
  }

  lemma StagesThree(w: World) returns (steps: seq<Step>, w': World)
    requires NewRun(w) && w.table == TABLE && w.live.value.base == 0 && w.live.value.first == 1
             && w.live.value.run.resume.value.firstObjectSeq.None?
    ensures Reaches(w, steps, w') && SafeRun(w, steps) && w' == w.(live := w'.live) && w'.live.Some?
    ensures ThreeFiles(w'.live.value) && w'.live.value.run == w.live.value.run
  {
    hide Reaches, SafeRun;
    var l := w.live.value;
    var a := StageFile(w, 2, true);
    var w1 := w.(live := Some(WithFile(l, 2, true)));
    assert w1.live.value.cuts == [2] && w1.live.value.files == [File(1, true)];
    TwoRowsGiveOne();
    var b := Reports(w1, 5);
    var w2 := w1.(live := Some(WithReport(w1.live.value, 5)));
    var c := StageFile(w2, 1, true);
    var w3 := w2.(live := Some(WithFile(w2.live.value, 1, true)));
    assert w3.live.value.cuts == [2, 3] && w3.live.value.files == [File(1, true), File(2, true)];
    var d := StageFile(w3, 1, true);
    w' := w3.(live := Some(WithFile(w3.live.value, 1, true)));
    assert w'.live.value.cuts == [2, 3, 4] && w'.live.value.files == [File(1, true), File(2, true), File(3, true)];
    hide WithFile, Staging;
    Then(w, a, w1, b, w2);
    Then(w, a + b, w2, c, w3);
    Then(w, a + b + c, w3, d, w');
    steps := a + b + c + d;
  }

  lemma TwoRowsGiveOne()
    ensures TSC.Watermark(TABLE[0..2], false) == Some(5)
  {
    assert TABLE[0..2] == [5, 10];
    TSC.LastOtherAt([5, 10], 10, 0);
  }

  /** Files 1 to 3, announced and not yet delivered. */
  predicate ThreeFiles(l: Live) {
    && l.run.withSink && l.run.interval == 0 && l.run.resume.Some? && l.sup == SS.Fresh && l.first == 1
    && l.run.resume.value.firstObjectSeq.None? && l.base == 0 && l.cuts == [2, 3, 4]
    && l.files == [File(1, true), File(2, true), File(3, true)] && l.arrived == 3
    && l.staged == {} && l.acked == {} && l.through == 0 && l.prefixes == []
    && l.checkpoints == [Checkpoint(1, Some(5), None)]
  }

  lemma DeliversFirstAndThird(w: World) returns (steps: seq<Step>, w': World)
    requires w.live.Some? && ThreeFiles(w.live.value) && w.target == map[]
    ensures Reaches(w, steps, w') && SafeRun(w, steps)
    ensures Leaves(w.(target := w'.target), w', w.live.value, Some(5), 2)
    ensures var key := Key(w.live.value.run.runId, 3); key in w'.target && w'.target[key] == {3}
  {
    var l := w.live.value;
    var a := AcksFirst(w);
    var l1 := WithFirstAck(l);
    var w1 := w.(target := w.target[Key(l.run.runId, l.first) := FileRows(l, 0)], live := Some(l1));
    ThirdIsNoPrefix(l1);
    var w2 := Next(w1, Ack(2));
    OneStep(w1, Ack(2));
    assert FileRows(l1, 2) == {3};
    var b: seq<Step>;
    b, w' := FailsWithRecord(w2, Checkpoint(1, Some(5), None), Delivered(1, 1));
    hide Reaches, SafeRun, Next, Possible, FileRows;
    Then(w, a, w1, [Ack(2)], w2);
    Then(w, a + [Ack(2)], w2, b, w');
    steps := a + [Ack(2)] + b;
  }

  lemma ThirdIsNoPrefix(l: Live)
    requires l.first == 1 && l.arrived == 3 && l.files == [File(1, true), File(2, true), File(3, true)] && l.acked == {1}
    ensures var m := l.(acked := l.acked + {l.first + 2}, staged := l.staged + {l.first + 2});
            PrefixOf(Emitted(m), Ranges(m), m.acked) == Delivered(1, 1)
  {
    var m := l.(acked := l.acked + {l.first + 2}, staged := l.staged + {l.first + 2});
    assert Emitted(m)[0] == 1 && Emitted(m)[1] == 2 && 2 !in m.acked;
    LongestRunIsUnique(Emitted(m), Ranges(m), m.acked, 1);
  }

  /** The second attempt stages all that is left as file 2 and has it delivered,
      so its watermark is 30 and its next file 3: the file 3 of the first
      attempt, which the next one may replace, holds the row of 30. Each step
      of this history is safe. */
  lemma EarlierAttemptLeavesAPassedRow(o: Options) returns (steps: seq<Step>)
    requires o.withSink && o.interval == 0
    ensures History(Empty(TABLE), steps)
    ensures var w := Run(Empty(TABLE), steps).value;
            && w.live.None? && w.doc.Some? && w.doc.value.resume.Some? && NextFile(w.doc).Some?
            && !NumbersAbove(w, {})
  {
    var a, w1 := LeavesAFileBehind(o);
    InitInv(TABLE, {}, map[]);
    RunKeeps(Empty(TABLE), a);
    ContinuingIsSafe(w1, o);
    ContinuesAt(w1, o);
    OneRowBelow();
    hide Inv, Safe;
    var b, w2 := DeliversAndFails(w1, o);
    Then(Empty(TABLE), a, w1, b, w2);
    steps := a + b;
    var key := Key(o.runId, 3);
    assert key in w2.target && w2.target[key] == {3};
    assert !AllAbove(w2.table, w2.target[key], Mark(w2.doc)) by {
      assert TABLE[3] == 30 && 3 in w2.target[key];
    }
  }

  lemma OneRowBelow()
    ensures RowsBelow(TABLE, Some(5)) == 1
  {
    RowsBelowIs(TABLE, Some(5));
    assert TABLE[0] == 5 && TABLE[1] == 10;
  }
}
