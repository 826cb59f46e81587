/**
 One world over any number of runs: the source's table, what is at the target,
 the state document, and at most one live run (the state lock excludes a second
 one) made of a source, a destination, a sink with its ledger, and the state
 supervisor, joined by unbounded queues. Every step of every part may happen at
 any time, and the run may crash or fail at any point; the next run starts from
 the document.

 The invariant at the end says what every reachable world keeps.
 */
module Pipeline {
  import opened Wrappers
  import opened Source
  import opened SinkLedger
  import opened Resume
  import SS = StateSupervisor
  import TSC = TieSafeCursor

  /** An object at the target: which run named it, and its number in that run. */
  datatype Key = Key(run: nat, num: nat)

  /** A staged file: it holds the batches after the previous file's up to
      `last`, and announces that range or not. */
  datatype File = File(last: nat, ranged: bool)

  /** Rows are positions in the table; the table holds their cursor values. */
  datatype Live = Live(
    run: SS.Run, sup: SS.State,
    first: nat, start: Option<Cursor>, base: nat, limit: nat,
    cuts: seq<nat>, ended: bool, reported: Option<Cursor>,
    written: nat, files: seq<File>, arrived: nat, staged: set<Path>, acked: set<Path>, through: nat,
    checkpoints: seq<Checkpoint>, commits: seq<nat>, prefixes: seq<Delivered>)

  /** `used`: the runs whose objects were stored for and are not written again,
      but for those a resume record names. */
  datatype World = World(
    table: seq<Cursor>, landed: set<nat>, target: map<Key, set<nat>>,
    doc: Option<SS.Doc>, used: set<nat>, live: Option<Live>)

  datatype Step =
    | Append(more: seq<Cursor>)
    | Start(options: Options)
    | NextBatch(rows: nat) | EndStream | Report
    | Write | Announce(last: nat, ranged: bool) | Commit(through: nat)
    | Arrive | Upload(file: nat, content: set<nat>) | Ack(file: nat)
    | ReceiveCheckpoint | ReceiveCommit | ReceivePrefix
    | Fail(sinkDone: bool) | Succeed | Crash

  // ----- reading a live run ------------------------------------------------

  /** The table position after batch `b`. */
  function Upto(l: Live, b: nat): nat
    requires b <= |l.cuts|
  {
    if b == 0 then l.base else l.cuts[b - 1]
  }

  /** The last batch of the first `k` files. */
  function End(files: seq<File>, k: nat): nat
    requires k <= |files|
  {
    if k == 0 then 0 else files[k - 1].last
  }

  function Interval(lo: nat, hi: nat): (r: set<nat>)
    ensures forall i :: i in r <==> lo <= i < hi
    decreases hi
  {
    if hi <= lo then {} else Interval(lo, hi - 1) + {hi - 1}
  }

  predicate CutsFit(l: Live) {
    forall k :: 0 <= k < |l.files| ==> l.files[k].last <= |l.cuts|
  }

  function FileRows(l: Live, k: nat): set<nat>
    requires k < |l.files| && CutsFit(l)
  {
    assert k > 0 ==> l.files[k - 1].last <= |l.cuts|;
    Interval(Upto(l, End(l.files, k)), Upto(l, End(l.files, k + 1)))
  }

  /** The watermark the source reports now. */
  function WatermarkNow(table: seq<Cursor>, l: Live): Option<Cursor>
    requires l.base <= Upto(l, |l.cuts|) <= |table|
  {
    TSC.Watermark(table[l.base..Upto(l, |l.cuts|)], l.ended)
  }

  /** The ledger's view: files are named by their number. */
  function Numbers(first: nat, n: nat): (r: seq<Path>)
    ensures |r| == n && forall i :: 0 <= i < n ==> r[i] == first + i
  {
    if n == 0 then [] else Numbers(first, n - 1) + [first + n - 1]
  }

  function Emitted(l: Live): (r: seq<Path>)
    ensures |r| == l.arrived
  {
    Numbers(l.first, l.arrived)
  }

  function RangesOf(files: seq<File>, first: nat, k: nat): (r: map<Path, Range>)
    requires k <= |files|
    ensures forall p :: p in r <==> first <= p < first + k && files[p - first].ranged
    ensures forall p :: p in r ==> r[p] == Range(End(files, p - first) + 1, files[p - first].last)
  {
    if k == 0 then map[]
    else
      var before := RangesOf(files, first, k - 1);
      if files[k - 1].ranged then before[first + k - 1 := Range(End(files, k - 1) + 1, files[k - 1].last)] else before
  }

  function Ranges(l: Live): map<Path, Range>
    requires l.arrived <= |l.files|
  {
    RangesOf(l.files, l.first, l.arrived)
  }

  /** How many rows lie at or below the resume value. */
  function RowsBelow(table: seq<Cursor>, w: Option<Cursor>): (n: nat)
    ensures n <= |table|
  {
    if w.None? || table == [] then 0
    else if table[|table| - 1] <= w.value then |table|
    else RowsBelow(table[..|table| - 1], w)
  }

  // ----- starting a run (runner.rs) ----------------------------------------

  /** A run of a source that reports a cursor: records hold no token, and it
      goes on at the watermark. */
  function Launch(w: World, o: Options): Live {
    var run := RunOf(w.doc, o, None);
    Live(run, SS.Fresh, FirstNumber(run), GivenTo(w.doc, o).cursor, RowsBelow(w.table, GivenTo(w.doc, o).cursor), |w.table|,
         [], false, None, 0, [], 0, {}, {}, 0, [], [], [])
  }

  // ----- steps --------------------------------------------------------------

  predicate Ascending(s: seq<int>) { forall i, j :: 0 <= i < j < |s| ==> s[i] <= s[j] }

  /** Everything the destination staged was announced to the sink stage and acknowledged. */
  predicate AllDelivered(l: Live) {
    l.arrived == |l.files| && forall p :: l.first <= p < l.first + |l.files| ==> p in l.acked
  }

  /** What the code and its surroundings may do next. */
  predicate Possible(w: World, s: Step) {
    if s.Append? then
      // Later rows are strictly greater.
      Ascending(s.more) && (w.table != [] && s.more != [] ==> w.table[|w.table| - 1] < s.more[0])
    else if s.Start? then w.live.None?
    else w.live.Some? && LiveEnabled(w, w.live.value, s)
  }

  predicate LiveEnabled(w: World, l: Live, s: Step) {
    match s
    case Append(_) => false
    case Start(_) => false
    case NextBatch(n) => !l.ended && Upto(l, |l.cuts|) + n <= l.limit
    case EndStream => !l.ended && Upto(l, |l.cuts|) == l.limit
    case Report => 0 < |l.cuts| && l.base <= Upto(l, |l.cuts|) <= |w.table|
    case Write => l.written < |l.cuts|
    // Ranges are contiguous and in announcement order.
    case Announce(last, _) => l.run.withSink && End(l.files, |l.files|) < last <= l.written
    // With a sink, committed only after the files holding the batches were announced.
    case Commit(n) => n <= l.written <= |l.cuts| && (l.run.withSink ==> n <= End(l.files, |l.files|))
    case Arrive => l.arrived < |l.files|
    // All of the file or a part of it, as an upload broken off leaves it.
    case Upload(k, content) => k < l.arrived <= |l.files| && CutsFit(l) && l.first + k !in l.acked && content <= FileRows(l, k)
    case Ack(k) => k < l.arrived <= |l.files| && CutsFit(l)
    case ReceiveCheckpoint => l.checkpoints != []
    case ReceiveCommit => l.commits != []
    case ReceivePrefix => l.prefixes != []
    // The sink may have delivered everything although the run failed.
    case Fail(sinkDone) => sinkDone ==> l.run.withSink && AllDelivered(l)
    // Every plugin succeeded: the destination's final commit covers every batch and all events arrived.
    case Succeed =>
      && l.ended && l.written == |l.cuts| && l.sup.durable == |l.cuts|
      && l.checkpoints == [] && l.commits == [] && (l.run.withSink ==> AllDelivered(l))
    case Crash => true
  }

  function Received(w: World, l: Live, e: SS.Event): World {
    var act := SS.OnEvent(l.run, l.sup, e);
    Persisted(w, l.run.runId, act).(live := Some(l.(sup := act.state)))
  }

  /** Stores the act's document, if any; its run id is used from then on. */
  function Persisted(w: World, id: nat, act: SS.Act): World {
    if act.store.Some? then w.(doc := act.store, used := w.used + {id}) else w
  }

  function Flushed(w: World, l: Live, gate: Option<bool>, outcome: bool): World {
    Persisted(w, l.run.runId, SS.Flush(l.run, l.sup, gate, l.prefixes, outcome)).(live := None)
  }

  function Acked(w: World, l: Live, k: nat): World
    requires k < l.arrived <= |l.files| && CutsFit(l)
  {
    var m := l.(acked := l.acked + {l.first + k}, staged := l.staged + {l.first + k});
    var d := PrefixOf(Emitted(m), Ranges(m), m.acked);
    w.(target := w.target[Key(l.run.runId, l.first + k) := FileRows(l, k)],
       live := Some(m.(through := Max(l.through, d.through),
                       prefixes := if d.through > l.through then l.prefixes + [d] else l.prefixes)))
  }

  function LiveNext(w: World, l: Live, s: Step): World
    requires LiveEnabled(w, l, s)
  {
    match s
    case Append(_) => w
    case Start(_) => w
    case NextBatch(n) => w.(live := Some(l.(cuts := l.cuts + [Upto(l, |l.cuts|) + n])))
    case EndStream => w.(live := Some(l.(ended := true)))
    case Report =>
      var now := WatermarkNow(w.table, l);
      if now.Some? && now != l.reported then
        w.(live := Some(l.(reported := now, checkpoints := l.checkpoints + [Checkpoint(|l.cuts|, now, None)])))
      else w
    case Write => w.(live := Some(l.(written := l.written + 1)))
    case Announce(last, ranged) => w.(live := Some(l.(files := l.files + [File(last, ranged)])))
    case Commit(n) =>
      w.(landed := if l.run.withSink then w.landed else w.landed + Interval(l.base, Upto(l, n)),
         live := Some(l.(commits := l.commits + [n])))
    case Arrive => w.(live := Some(l.(arrived := l.arrived + 1)))
    case Upload(k, content) =>
      w.(target := w.target[Key(l.run.runId, l.first + k) := content],
         live := Some(l.(staged := l.staged + {l.first + k})))
    case Ack(k) => Acked(w, l, k)
    case ReceiveCheckpoint => Received(w, l.(checkpoints := l.checkpoints[1..]), SS.Reported(l.checkpoints[0]))
    case ReceiveCommit => Received(w, l.(commits := l.commits[1..]), SS.Committed(l.commits[0]))
    case ReceivePrefix => Received(w, l.(prefixes := l.prefixes[1..]), SS.Prefix(l.prefixes[0]))
    case Fail(sinkDone) => Flushed(w, l, if l.run.withSink then Some(sinkDone) else None, false)
    case Succeed => Flushed(w, l, if l.run.withSink then Some(true) else None, true)
    case Crash => w.(live := None)
  }

  /** A run with a sink that continues none numbers its files from 1 again: it
      may write every object under its id. */
  function Reopened(w: World, o: Options): set<nat> {
    if o.withSink && Resuming(w.doc, o).None? then w.used - {o.runId} else w.used
  }

  function Next(w: World, s: Step): World
    requires Possible(w, s)
  {
    if s.Append? then w.(table := w.table + s.more)
    else if s.Start? then w.(used := Reopened(w, s.options), live := Some(Launch(w, s.options)))
    else LiveNext(w, w.live.value, s)
  }

  // ----- the invariant ------------------------------------------------------

  /** No run that may still start writes this object. */
  predicate Protected(doc: Option<SS.Doc>, used: set<nat>, key: Key) {
    && key.run in used
    && (doc.Some? && doc.value.resume.Some? && doc.value.resume.value.runId == key.run ==>
          doc.value.resume.value.nextObjectSeq.Some? && key.num < doc.value.resume.value.nextObjectSeq.value)
  }

  /** The row is at the target for good. */
  ghost predicate HeldIn(landed: set<nat>, target: map<Key, set<nat>>, doc: Option<SS.Doc>, used: set<nat>, row: nat) {
    row in landed || exists key :: key in target && row in target[key] && Protected(doc, used, key)
  }

  ghost predicate Held(w: World, row: nat) {
    HeldIn(w.landed, w.target, w.doc, w.used, row)
  }

  predicate AtOrBelow(value: Cursor, mark: Option<Cursor>) { mark.Some? && value <= mark.value }

  function Mark(doc: Option<SS.Doc>): Option<Cursor> {
    if doc.Some? then doc.value.cursor else None
  }

  ghost predicate RowsHeld(table: seq<Cursor>, landed: set<nat>, target: map<Key, set<nat>>,
                           doc: Option<SS.Doc>, used: set<nat>) {
    forall i :: 0 <= i < |table| && AtOrBelow(table[i], Mark(doc)) ==> HeldIn(landed, target, doc, used, i)
  }

  /** The furthest prefix the ledger published, as a final flush sees it. */
  function LastPrefix(l: Live): Delivered {
    SS.Drain(l.sup.delivered, l.prefixes)
  }

  /** A failed run whose sink delivered everything: what its flush stores lies
      in the files its record counts as delivered. */
  predicate Covered(w: World, l: Live) {
    var c := SS.SafeCheckpoint(l.sup.at, l.sup.durable);
    c.Some? && c.value.batchSeq > l.sup.lastPersisted ==>
      && LastPrefix(l).objects <= |l.files| && End(l.files, LastPrefix(l).objects) <= |l.cuts|
      && RowsBelow(w.table, c.value.cursor) <= Upto(l, End(l.files, LastPrefix(l).objects))
  }

  /** The two conditions under which no row is lost. A run that reopens its id
      needs each row at or below the watermark to be held without that id's
      objects; a run that failed after its sink delivered everything needs its
      record to cover its watermark. */
  ghost predicate Safe(w: World, s: Step) {
    match s
    case Start(o) => RowsHeld(w.table, w.landed, w.target, w.doc, Reopened(w, o))
    case Fail(sinkDone) => sinkDone && w.live.Some? ==> Covered(w, w.live.value)
    case _ => true
  }

  ghost predicate Enabled(w: World, s: Step) {
    Possible(w, s) && Safe(w, s)
  }

  predicate DocOk(table: seq<Cursor>, doc: Option<SS.Doc>, used: set<nat>) {
    doc.Some? ==>
      && doc.value.cursor.Some? && table != [] && doc.value.cursor.value <= table[|table| - 1]
      && (doc.value.resume.Some? ==>
            && doc.value.resume.value.runId in used && doc.value.resume.value.nextObjectSeq.Some?
            && doc.value.resume.value.token.None?)
  }

  /** What the source has read, against the table. */
  predicate SourceOk(table: seq<Cursor>, l: Live) {
    && l.base <= l.limit <= |table|
    && (forall i :: 0 <= i < |table| ==> (i < l.base <==> AtOrBelow(table[i], l.start)))
    && (forall i, j :: 0 <= i < l.limit <= j < |table| ==> table[i] < table[j])
    && (forall b :: 0 <= b < |l.cuts| ==> l.base <= l.cuts[b] <= l.limit)
    && (forall a, b :: 0 <= a < b < |l.cuts| ==> l.cuts[a] <= l.cuts[b])
    && (l.ended ==> Upto(l, |l.cuts|) == l.limit)
    && (l.reported.Some? ==>
          WatermarkNow(table, l).Some? && l.reported.value <= WatermarkNow(table, l).value)
  }

  /** Everything at or below the checkpoint's watermark was read by its batch. */
  predicate CheckpointOk(table: seq<Cursor>, l: Live, c: Checkpoint) {
    && 0 < c.batchSeq <= |l.cuts|
    && c.cursor.Some? && c.token.None?
    && (l.start.Some? ==> l.start.value < c.cursor.value)
    && (forall i :: 0 <= i < |table| && table[i] <= c.cursor.value ==> i < Upto(l, c.batchSeq))
    && (exists i :: 0 <= i < l.limit <= |table| && table[i] == c.cursor.value)
    && l.reported.Some? && c.cursor.value <= l.reported.value
  }

  predicate Before(c: Checkpoint, d: Checkpoint) {
    c.batchSeq <= d.batchSeq && c.cursor.Some? && d.cursor.Some? && c.cursor.value <= d.cursor.value
  }

  /** Checkpoints arrive in order, and the document keeps up with them. */
  predicate CheckpointsOk(table: seq<Cursor>, l: Live, doc: Option<SS.Doc>) {
    var at, q := l.sup.at, l.checkpoints;
    && (forall i :: 0 <= i < |q| ==> CheckpointOk(table, l, q[i]))
    && (forall b :: b in at ==> at[b].batchSeq == b && CheckpointOk(table, l, at[b]))
    && (forall i, j :: 0 <= i < j < |q| ==> Before(q[i], q[j]))
    && (forall b, i :: b in at && 0 <= i < |q| ==> Before(at[b], q[i]))
    && (forall a, b :: a in at && b in at && a <= b ==> Before(at[a], at[b]))
    && (if l.sup.lastPersisted == 0 then Mark(doc) == l.start
        else l.sup.lastPersisted in at && Mark(doc).Some? && Mark(doc).value <= at[l.sup.lastPersisted].cursor.value
             && (l.start.Some? ==> l.start.value < Mark(doc).value))
  }

  predicate FilesOk(l: Live) {
    && l.written <= |l.cuts|
    && l.arrived <= |l.files|
    && (forall k :: 0 <= k < |l.files| ==> 0 < l.files[k].last <= l.written)
    && (forall j, k :: 0 <= j < k < |l.files| ==> l.files[j].last < l.files[k].last)
    && (forall p :: p in l.acked ==> l.first <= p < l.first + l.arrived)
    && (!l.run.withSink ==> l.files == [])
  }

  /** A durable commit: the rows landed, or the files holding them were announced. */
  predicate CommitOk(landed: set<nat>, l: Live, n: nat) {
    && n <= |l.cuts|
    && (l.run.withSink ==> n <= End(l.files, |l.files|))
    && (!l.run.withSink ==> forall i :: l.base <= i < Upto(l, n) ==> i in landed)
  }

  /** A delivered prefix: its files were acknowledged and reach `through`. */
  predicate PrefixOk(l: Live, d: Delivered) {
    && d.objects <= l.arrived <= |l.files|
    && (forall p :: l.first <= p < l.first + d.objects ==> p in l.acked)
    && d.through == End(l.files, d.objects)
  }

  predicate CommitsOk(landed: set<nat>, l: Live)
    requires FilesOk(l)
  {
    && (forall i :: 0 <= i < |l.commits| ==> CommitOk(landed, l, l.commits[i]))
    && CommitOk(landed, l, l.sup.durable)
  }

  /** The file is at the target, whole. */
  predicate AckedOk(target: map<Key, set<nat>>, l: Live, p: Path)
    requires FilesOk(l)
  {
    && l.first <= p < l.first + l.arrived && Key(l.run.runId, p) in target
    && target[Key(l.run.runId, p)] == FileRows(l, p - l.first)
  }

  /** The file is at the target, or a part of it. */
  predicate StagedOk(target: map<Key, set<nat>>, l: Live, p: Path)
    requires FilesOk(l)
  {
    && l.first <= p < l.first + l.arrived && Key(l.run.runId, p) in target
    && target[Key(l.run.runId, p)] <= FileRows(l, p - l.first)
  }

  predicate ObjectsOk(target: map<Key, set<nat>>, l: Live)
    requires FilesOk(l)
  {
    && (forall p :: p in l.acked ==> AckedOk(target, l, p))
    && (forall p :: p in l.staged ==> StagedOk(target, l, p))
  }

  /** Published prefixes increase; the ledger knows the furthest. */
  predicate PrefixesOk(l: Live)
    requires FilesOk(l)
  {
    && (forall i :: 0 <= i < |l.prefixes| ==> PrefixOk(l, l.prefixes[i]))
    && PrefixOk(l, l.sup.delivered)
    && l.through == (if l.prefixes == [] then l.sup.delivered.through else l.prefixes[|l.prefixes| - 1].through)
    && l.through == PrefixOf(Emitted(l), Ranges(l), l.acked).through
    && (forall i, j :: 0 <= i < j < |l.prefixes| ==> l.prefixes[i].through < l.prefixes[j].through)
    && (forall i :: 0 <= i < |l.prefixes| ==> l.sup.delivered.through < l.prefixes[i].through)
  }

  /** The document names this run's next file, or no stored row is under its id. */
  predicate NumberingOk(doc: Option<SS.Doc>, used: set<nat>, l: Live) {
    && l.run.resume.Some?
    && l.first == (if l.run.resume.value.firstObjectSeq.Some? then l.run.resume.value.firstObjectSeq.value else 1)
    && (l.run.withSink && l.run.runId in used ==>
          && doc.Some? && doc.value.resume.Some?
          && doc.value.resume.value.runId == l.run.runId
          && doc.value.resume.value.nextObjectSeq.Some?
          && doc.value.resume.value.nextObjectSeq.value <= l.first + l.sup.delivered.objects)
    && l.run.prior.Some? == l.start.Some?
    && (l.run.prior.Some? ==> l.run.prior.value.cursor == l.start)
  }

  predicate LiveOk(w: World, l: Live) {
    && SourceOk(w.table, l)
    && CheckpointsOk(w.table, l, w.doc)
    && FilesOk(l)
    && CommitsOk(w.landed, l)
    && ObjectsOk(w.target, l)
    && PrefixesOk(l)
    && NumberingOk(w.doc, w.used, l)
  }

  ghost predicate Inv(w: World) {
    && Ascending(w.table)
    && DocOk(w.table, w.doc, w.used)
    && RowsHeld(w.table, w.landed, w.target, w.doc, w.used)
    && (w.live.Some? ==> LiveOk(w, w.live.value))
  }
}
