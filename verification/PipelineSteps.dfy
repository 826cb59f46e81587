/**
 Every step of the world in Pipeline keeps its invariant, in three parts that
 follow the flow of the data.

 Source: reading on, only larger cursors come, so a watermark reported earlier
 bounds exactly the rows read before it.

 Destination and sink: an object is written over only by content that adds to
 it, or if no row counts as held because of it. So the rows already held stay
 held, and the delivered prefix reaches no further than the files that hold it.

 Supervisor: it stores a checkpoint only once the rows at or below it are held,
 while the run goes on, when it fails, and when it succeeds.

 The invariant's parts are kept one at a time, each by a lemma that sees only
 the state it speaks of; the lemma of a step puts them together.
 */
module PipelineSteps {
  import opened Wrappers
  import opened Source
  import opened SinkLedger
  import SS = StateSupervisor
  import TSC = TieSafeCursor
  import opened Pipeline
  import opened Resume

  // ----- every step keeps it ------------------------------------------------

  lemma InitInv(table: seq<Cursor>, landed: set<nat>, target: map<Key, set<nat>>)
    requires Ascending(table)
    ensures Inv(World(table, landed, target, None, {}, None))
  {
  }

  predicate MayFollow(table: seq<Cursor>, more: seq<Cursor>) {
    Ascending(table) && Ascending(more) && (table != [] && more != [] ==> table[|table| - 1] < more[0])
  }

  lemma AppendKeepsSource(table: seq<Cursor>, more: seq<Cursor>, l: Live)
    requires MayFollow(table, more)
    requires l.start.Some? ==> table != [] && l.start.value <= table[|table| - 1]
    requires SourceOk(table, l)
    ensures SourceOk(table + more, l)
  {
    assert Upto(l, |l.cuts|) <= |table|;
    assert WatermarkNow(table + more, l) == WatermarkNow(table, l) by { WatermarkIsLocal(table, more, l); }
    hide WatermarkNow;
  }

  lemma WatermarkIsLocal(table: seq<Cursor>, more: seq<Cursor>, l: Live)
    requires l.base <= Upto(l, |l.cuts|) <= |table|
    ensures WatermarkNow(table + more, l) == WatermarkNow(table, l)
  {
    assert (table + more)[l.base..Upto(l, |l.cuts|)] == table[l.base..Upto(l, |l.cuts|)];
  }

  lemma AppendKeepsCheckpoint(table: seq<Cursor>, more: seq<Cursor>, l: Live, c: Checkpoint)
    requires MayFollow(table, more) && CheckpointOk(table, l, c)
    ensures CheckpointOk(table + more, l, c)
  {
    var i :| 0 <= i < l.limit <= |table| && table[i] == c.cursor.value;
    assert (table + more)[i] == c.cursor.value;
  }

  lemma AppendKeepsCheckpoints(table: seq<Cursor>, more: seq<Cursor>, l: Live, doc: Option<SS.Doc>)
    requires MayFollow(table, more) && CheckpointsOk(table, l, doc)
    ensures CheckpointsOk(table + more, l, doc)
  {
    forall i | 0 <= i < |l.checkpoints| ensures CheckpointOk(table + more, l, l.checkpoints[i]) {
      AppendKeepsCheckpoint(table, more, l, l.checkpoints[i]);
    }
    forall b | b in l.sup.at ensures CheckpointOk(table + more, l, l.sup.at[b]) {
      AppendKeepsCheckpoint(table, more, l, l.sup.at[b]);
    }
  }

  lemma AppendKeepsHeld(w: World, more: seq<Cursor>)
    requires MayFollow(w.table, more) && DocOk(w.table, w.doc, w.used)
    requires RowsHeld(w.table, w.landed, w.target, w.doc, w.used)
    ensures RowsHeld(w.table + more, w.landed, w.target, w.doc, w.used) && DocOk(w.table + more, w.doc, w.used)
  {
    hide HeldIn;
  }

  lemma StartIsBelow(w: World, l: Live)
    requires DocOk(w.table, w.doc, w.used) && CheckpointsOk(w.table, l, w.doc)
    ensures l.start.Some? ==> Mark(w.doc).Some? && l.start.value <= Mark(w.doc).value
                              && w.table != [] && l.start.value <= w.table[|w.table| - 1]
  {
    hide CheckpointOk, Before;
  }

  lemma AppendKeeps(w: World, more: seq<Cursor>)
    requires Inv(w) && Enabled(w, Append(more))
    ensures Inv(Next(w, Append(more)))
  {
    hide RowsHeld, DocOk, SourceOk, CheckpointsOk, FilesOk, CommitsOk, ObjectsOk, PrefixesOk, NumberingOk;
    AppendKeepsHeld(w, more);
    if w.live.Some? {
      var l := w.live.value;
      StartIsBelow(w, l);
      AppendKeepsCheckpoints(w.table, more, l, w.doc);
      AppendKeepsSource(w.table, more, l);
    }
  }

  lemma {:induction false} RowsBelowIs(table: seq<Cursor>, mark: Option<Cursor>)
    requires Ascending(table)
    ensures forall i :: 0 <= i < |table| ==> (i < RowsBelow(table, mark) <==> AtOrBelow(table[i], mark))
  {
    if mark.Some? && table != [] && table[|table| - 1] > mark.value {
      var t := table[..|table| - 1];
      RowsBelowIs(t, mark);
      assert forall i :: 0 <= i < |t| ==> t[i] == table[i];
    }
  }

  lemma StartKeeps(w: World, o: Options)
    requires Inv(w) && Enabled(w, Start(o))
    ensures Inv(Next(w, Start(o)))
  {
    RowsBelowIs(w.table, Mark(w.doc));
    var l := Launch(w, o);
    assert SourceOk(w.table, l);
  }

  /** Reading on, the watermark only grows. */
  lemma WatermarkGrows(table: seq<Cursor>, lo: nat, u: nat, v: nat, ended: bool, ended': bool)
    requires Ascending(table) && lo <= u <= v <= |table| && (ended ==> ended' && u == v)
    ensures var a, b := TSC.Watermark(table[lo..u], ended), TSC.Watermark(table[lo..v], ended');
            a.Some? ==> b.Some? && a.value <= b.value
  {
    var s, t := table[lo..u], table[lo..v];
    assert TSC.Ordered(s) && TSC.Ordered(t);
    if s != [] {
      TSC.CompleteIsGreatestBelow(s);
      TSC.CompleteIsGreatestBelow(t);
      assert s[|s| - 1] == t[|s| - 1] <= t[|t| - 1];
      if TSC.Complete(s).Some? {
        var k :| 0 <= k < |s| && s[k] == TSC.Complete(s).value;
        assert t[k] < t[|t| - 1];
      }
    }
  }

  /** `l'` comes after `l` in the same run: things were only added. */
  predicate Grows(l: Live, l': Live) {
    && l'.run == l.run && l'.first == l.first && l'.base == l.base
    && |l.cuts| <= |l'.cuts| && (forall b :: 0 <= b < |l.cuts| ==> l'.cuts[b] == l.cuts[b])
    && |l.files| <= |l'.files| && (forall k :: 0 <= k < |l.files| ==> l'.files[k] == l.files[k])
    && l.arrived <= l'.arrived && l.acked <= l'.acked
  }

  lemma CommitStays(landed: set<nat>, landed': set<nat>, l: Live, l': Live, n: nat)
    requires Grows(l, l') && FilesOk(l') && landed <= landed' && CommitOk(landed, l, n)
    ensures CommitOk(landed', l', n)
  {
    assert Upto(l', n) == Upto(l, n);
    assert |l.files| < |l'.files| ==> End(l.files, |l.files|) <= l'.files[|l'.files| - 1].last;
  }

  lemma PrefixStays(l: Live, l': Live, d: Delivered)
    requires Grows(l, l') && FilesOk(l') && PrefixOk(l, d)
    ensures PrefixOk(l', d)
  {
  }

  /** What the files' own order is not needed for. */
  lemma FilesFacts(l: Live)
    requires FilesOk(l)
    ensures CutsFit(l) && l.arrived <= |l.files| && l.written <= |l.cuts|
    ensures forall p :: p in l.acked ==> l.first <= p < l.first + l.arrived
  {
  }

  lemma FileRowsStay(l: Live, l': Live, k: nat)
    requires Grows(l, l') && CutsFit(l) && CutsFit(l') && k < |l.files|
    ensures FileRows(l', k) == FileRows(l, k)
  {
  }

  /** Queued and received commits stay good. */
  lemma CommitsStay(landed: set<nat>, landed': set<nat>, l: Live, l': Live)
    requires Grows(l, l') && FilesOk(l) && FilesOk(l') && landed <= landed'
    requires CommitsOk(landed, l) && l'.commits == l.commits && l'.sup.durable == l.sup.durable
    ensures CommitsOk(landed', l')
  {
    hide CommitOk, FilesOk, Grows;
    CommitStays(landed, landed', l, l', l.sup.durable);
    forall i | 0 <= i < |l.commits| ensures CommitOk(landed', l', l.commits[i]) {
      CommitStays(landed, landed', l, l', l.commits[i]);
    }
  }

  lemma GrowsFacts(l: Live, l': Live)
    requires Grows(l, l')
    ensures l'.run == l.run && l'.first == l.first && l'.base == l.base && |l.files| <= |l'.files| && |l.cuts| <= |l'.cuts|
    ensures l.arrived <= l'.arrived
  {
  }

  lemma ObjectsStay(target: map<Key, set<nat>>, l: Live, l': Live)
    requires Grows(l, l') && FilesOk(l) && FilesOk(l') && ObjectsOk(target, l) && l'.acked == l.acked && l'.staged == l.staged
    ensures ObjectsOk(target, l')
  {
    hide FilesOk, Grows, AckedOk, StagedOk;
    forall p | p in l'.acked ensures AckedOk(target, l', p) {
      ObjectStays(target, target, l, l', p);
    }
    forall p | p in l'.staged ensures StagedOk(target, l', p) {
      ObjectStays(target, target, l, l', p);
    }
  }

  /** An object nobody writes is what it was. */
  lemma ObjectStays(target: map<Key, set<nat>>, target': map<Key, set<nat>>, l: Live, l': Live, p: Path)
    requires Grows(l, l') && FilesOk(l) && FilesOk(l')
    requires var key := Key(l.run.runId, p); key in target ==> key in target' && target'[key] == target[key]
    ensures AckedOk(target, l, p) ==> AckedOk(target', l', p)
    ensures StagedOk(target, l, p) ==> StagedOk(target', l', p)
  {
    hide FilesOk, Grows, FileRows;
    FilesFacts(l);
    FilesFacts(l');
    GrowsFacts(l, l');
    if l.first <= p < l.first + l.arrived {
      FileRowsStay(l, l', p - l.first);
    }
  }

  lemma PrefixesStay(l: Live, l': Live)
    requires Grows(l, l') && FilesOk(l) && FilesOk(l') && PrefixesOk(l)
    requires l'.prefixes == l.prefixes && l'.sup.delivered == l.sup.delivered && l'.through == l.through
    requires PrefixOf(Emitted(l'), Ranges(l'), l'.acked).through == PrefixOf(Emitted(l), Ranges(l), l.acked).through
    ensures PrefixesOk(l')
  {
    hide PrefixOf, Emitted, Ranges, PrefixOk, FilesOk, Grows;
    PrefixStays(l, l', l.sup.delivered);
    forall i | 0 <= i < |l.prefixes| ensures PrefixOk(l', l.prefixes[i]) {
      PrefixStays(l, l', l.prefixes[i]);
    }
  }

  lemma ReadOnKeepsCheckpoints(table: seq<Cursor>, l: Live, l': Live, doc: Option<SS.Doc>)
    requires Grows(l, l') && l' == l.(cuts := l'.cuts, ended := l'.ended) && CheckpointsOk(table, l, doc)
    ensures CheckpointsOk(table, l', doc)
  {
    assert forall c: Checkpoint {:trigger CheckpointOk(table, l, c)} :: CheckpointOk(table, l, c) ==> CheckpointOk(table, l', c);
    hide CheckpointOk;
  }

  lemma ReadOnKeeps(w: World, l: Live, l': Live)
    requires LiveOk(w, l) && SourceOk(w.table, l')
    requires Grows(l, l') && l' == l.(cuts := l'.cuts, ended := l'.ended)
    ensures LiveOk(w, l')
  {
    assert FilesOk(l');
    hide SourceOk, CheckpointsOk, FilesOk, CommitsOk, ObjectsOk, PrefixesOk, Grows, PrefixOf;
    ReadOnKeepsCheckpoints(w.table, l, l', w.doc);
    CommitsStay(w.landed, w.landed, l, l');
    ObjectsStay(w.target, l, l');
    PrefixesStay(l, l');
  }

  lemma NextBatchKeepsSource(table: seq<Cursor>, l: Live, n: nat)
    requires Ascending(table) && SourceOk(table, l) && !l.ended && Upto(l, |l.cuts|) + n <= l.limit
    ensures SourceOk(table, l.(cuts := l.cuts + [Upto(l, |l.cuts|) + n]))
  {
    var l' := l.(cuts := l.cuts + [Upto(l, |l.cuts|) + n]);
    hide WatermarkNow;
    WatermarkMoves(table, l, l');
  }

  /** The watermark of a source that read on does not move back. */
  lemma WatermarkMoves(table: seq<Cursor>, l: Live, l': Live)
    requires Ascending(table) && l.base == l'.base && (l.ended ==> l'.ended && Upto(l, |l.cuts|) == Upto(l', |l'.cuts|))
    requires l.base <= Upto(l, |l.cuts|) <= Upto(l', |l'.cuts|) <= |table|
    ensures var a, b := WatermarkNow(table, l), WatermarkNow(table, l');
            a.Some? ==> b.Some? && a.value <= b.value
  {
    WatermarkGrows(table, l.base, Upto(l, |l.cuts|), Upto(l', |l'.cuts|), l.ended, l'.ended);
  }

  lemma NextBatchKeeps(w: World, n: nat)
    requires Inv(w) && Enabled(w, NextBatch(n))
    ensures Inv(Next(w, NextBatch(n)))
  {
    hide RowsHeld, DocOk, SourceOk, CheckpointsOk, FilesOk, CommitsOk, ObjectsOk, PrefixesOk, NumberingOk;
    var l := w.live.value;
    var l' := Next(w, NextBatch(n)).live.value;
    NextBatchKeepsSource(w.table, l, n);
    assert Grows(l, l');
    hide Grows;
    ReadOnKeeps(w, l, l');
  }

  lemma EndStreamKeepsSource(table: seq<Cursor>, l: Live)
    requires Ascending(table) && SourceOk(table, l) && !l.ended && Upto(l, |l.cuts|) == l.limit
    ensures SourceOk(table, l.(ended := true))
  {
    WatermarkGrows(table, l.base, Upto(l, |l.cuts|), Upto(l, |l.cuts|), false, true);
  }

  lemma EndStreamKeeps(w: World)
    requires Inv(w) && Enabled(w, EndStream)
    ensures Inv(Next(w, EndStream))
  {
    var l := w.live.value;
    hide RowsHeld, SourceOk, CheckpointsOk, FilesOk, CommitsOk, ObjectsOk, PrefixesOk, NumberingOk;
    EndStreamKeepsSource(w.table, l);
    ReadOnKeeps(w, l, l.(ended := true));
  }

  /** A reported watermark bounds only what was read. */
  lemma ReportedIsRead(table: seq<Cursor>, l: Live)
    requires Ascending(table) && SourceOk(table, l) && 0 < |l.cuts| && WatermarkNow(table, l).Some?
    ensures CheckpointOk(table, l.(reported := WatermarkNow(table, l)), Checkpoint(|l.cuts|, WatermarkNow(table, l), None))
  {
    var u := Upto(l, |l.cuts|);
    var s := table[l.base..u];
    var now := WatermarkNow(table, l).value;
    assert TSC.Ordered(s);
    assert s != [] && now in s;
    assert forall i :: u <= i < |table| ==> s[|s| - 1] == table[u - 1] <= table[i];
    assert l.ended ==> forall i :: u <= i < |table| ==> table[u - 1] < table[i];
    TSC.CompleteIsGreatestBelow(s);
    var k :| 0 <= k < |s| && s[k] == now;
    assert table[l.base + k] == now;
  }

  lemma ReportKeepsCheckpoints(table: seq<Cursor>, l: Live, doc: Option<SS.Doc>, now: Option<Cursor>)
    requires CheckpointsOk(table, l, doc) && now.Some?
    requires l.reported.Some? ==> l.reported.value <= now.value
    requires CheckpointOk(table, l.(reported := now), Checkpoint(|l.cuts|, now, None))
    ensures CheckpointsOk(table, l.(reported := now, checkpoints := l.checkpoints + [Checkpoint(|l.cuts|, now, None)]), doc)
  {
    hide CheckpointOk, Before;
    var l' := l.(reported := now, checkpoints := l.checkpoints + [Checkpoint(|l.cuts|, now, None)]);
    forall c: Checkpoint | CheckpointOk(table, l, c)
      ensures CheckpointOk(table, l', c) && Before(c, Checkpoint(|l.cuts|, now, None))
    {
      EarlierReportStays(table, l, l', c, now);
    }
    NewReportIsOk(table, l, l', now);
  }

  lemma EarlierReportStays(table: seq<Cursor>, l: Live, l': Live, c: Checkpoint, now: Option<Cursor>)
    requires CheckpointOk(table, l, c) && now.Some? && (l.reported.Some? ==> l.reported.value <= now.value)
    requires l' == l.(reported := now, checkpoints := l'.checkpoints)
    ensures CheckpointOk(table, l', c) && Before(c, Checkpoint(|l.cuts|, now, None))
  {
  }

  lemma NewReportIsOk(table: seq<Cursor>, l: Live, l': Live, now: Option<Cursor>)
    requires CheckpointOk(table, l.(reported := now), Checkpoint(|l.cuts|, now, None))
    requires l' == l.(reported := now, checkpoints := l'.checkpoints)
    ensures CheckpointOk(table, l', Checkpoint(|l.cuts|, now, None))
  {
  }

  lemma ReportKeepsSource(table: seq<Cursor>, l: Live, l': Live)
    requires SourceOk(table, l) && l' == l.(reported := WatermarkNow(table, l), checkpoints := l'.checkpoints)
    ensures SourceOk(table, l')
  {
    assert WatermarkNow(table, l') == WatermarkNow(table, l);
    hide WatermarkNow;
  }

  lemma ReportedIsBehind(table: seq<Cursor>, l: Live)
    requires SourceOk(table, l)
    ensures l.reported.Some? ==> WatermarkNow(table, l).Some? && l.reported.value <= WatermarkNow(table, l).value
  {
  }

  /** What the supervisor and the source do not touch. */
  lemma FilesFrame(l: Live, l': Live)
    requires FilesOk(l) && l' == l.(reported := l'.reported, checkpoints := l'.checkpoints, commits := l'.commits, prefixes := l'.prefixes, sup := l'.sup)
    ensures FilesOk(l') && Grows(l, l')
  {
  }

  lemma ReportKeeps(w: World)
    requires Inv(w) && Enabled(w, Report)
    ensures Inv(Next(w, Report))
  {
    hide RowsHeld, DocOk, SourceOk, CheckpointsOk, FilesOk, CommitsOk, ObjectsOk, PrefixesOk, CheckpointOk, WatermarkNow, PrefixOf;
    var l := w.live.value;
    var now := WatermarkNow(w.table, l);
    var l' := Next(w, Report).live.value;
    FilesFrame(l, l');
    ReportedIsBehind(w.table, l);
    if now.Some? && now != l.reported {
      ReportedIsRead(w.table, l);
      ReportKeepsCheckpoints(w.table, l, w.doc, now);
      ReportKeepsSource(w.table, l, l');
      CommitsStay(w.landed, w.landed, l, l');
      ObjectsStay(w.target, l, l');
      PrefixesStay(l, l');
    }
  }

  // ----- the destination and the sink ----------------------------------------

  /** What the destination and the sink do not touch. */
  lemma DestinationFrame(w: World, l: Live, l': Live)
    requires l' == l.(written := l'.written, files := l'.files, arrived := l'.arrived, acked := l'.acked, staged := l'.staged,
                      through := l'.through, commits := l'.commits, prefixes := l'.prefixes)
    requires SourceOk(w.table, l) && CheckpointsOk(w.table, l, w.doc) && NumberingOk(w.doc, w.used, l)
    ensures SourceOk(w.table, l') && CheckpointsOk(w.table, l', w.doc) && NumberingOk(w.doc, w.used, l')
  {
    hide SourceOk, CheckpointsOk, NumberingOk;
    SourceFrame(w.table, l, l');
    CheckpointsStay(w.table, l, l', w.doc);
    NumberingFrame(w.doc, w.used, l, l');
  }

  lemma SourceFrame(table: seq<Cursor>, l: Live, l': Live)
    requires SourceOk(table, l) && l'.base == l.base && l'.limit == l.limit && l'.start == l.start && l'.cuts == l.cuts
    requires l'.ended == l.ended && l'.reported == l.reported
    ensures SourceOk(table, l')
  {
    assert WatermarkNow(table, l') == WatermarkNow(table, l);
    hide WatermarkNow;
  }

  lemma CheckpointsStay(table: seq<Cursor>, l: Live, l': Live, doc: Option<SS.Doc>)
    requires CheckpointsOk(table, l, doc) && l'.sup == l.sup && l'.checkpoints == l.checkpoints && l'.base == l.base
    requires l'.limit == l.limit && l'.start == l.start && l'.cuts == l.cuts && l'.reported == l.reported
    ensures CheckpointsOk(table, l', doc)
  {
    assert forall c: Checkpoint {:trigger CheckpointOk(table, l', c)} :: CheckpointOk(table, l, c) ==> CheckpointOk(table, l', c);
    hide CheckpointOk, Before;
  }

  lemma NumberingFrame(doc: Option<SS.Doc>, used: set<nat>, l: Live, l': Live)
    requires NumberingOk(doc, used, l) && l'.run == l.run && l'.first == l.first && l'.start == l.start && l'.sup == l.sup
    ensures NumberingOk(doc, used, l')
  {
  }

  /** Writing on and announcing more files changes nothing already announced. */
  lemma StagingKeeps(w: World, l: Live, l': Live)
    requires LiveOk(w, l) && FilesOk(l') && Grows(l, l')
    requires l' == l.(written := l'.written, files := l'.files, arrived := l'.arrived)
    requires PrefixOf(Emitted(l'), Ranges(l'), l'.acked).through == PrefixOf(Emitted(l), Ranges(l), l.acked).through
    ensures LiveOk(w, l')
  {
    hide SourceOk, CheckpointsOk, NumberingOk, FilesOk, CommitsOk, ObjectsOk, PrefixesOk, Grows, PrefixOf, Emitted, Ranges;
    DestinationFrame(w, l, l');
    CommitsStay(w.landed, w.landed, l, l');
    ObjectsStay(w.target, l, l');
    PrefixesStay(l, l');
  }

  lemma WriteKeeps(w: World)
    requires Inv(w) && Enabled(w, Write)
    ensures Inv(Next(w, Write))
  {
    hide RowsHeld, DocOk, SourceOk, CheckpointsOk, CommitsOk, ObjectsOk, PrefixesOk, NumberingOk, PrefixOf;
    StagingKeeps(w, w.live.value, Next(w, Write).live.value);
  }

  lemma {:induction false} RangesAreLocal(files: seq<File>, more: seq<File>, first: nat, k: nat)
    requires k <= |files|
    ensures RangesOf(files + more, first, k) == RangesOf(files, first, k)
  {
    if k > 0 {
      RangesAreLocal(files, more, first, k - 1);
      assert End(files + more, k - 1) == End(files, k - 1);
    }
  }

  /** What the ledger sees depends only on what arrived. */
  lemma SameView(l: Live, l': Live)
    requires l'.first == l.first && l'.arrived == l.arrived <= |l.files| && l'.files == l.files
    ensures Emitted(l') == Emitted(l) && Ranges(l') == Ranges(l)
  {
  }

  lemma AnnounceKeepsFiles(l: Live, f: File)
    requires FilesOk(l) && l.run.withSink && End(l.files, |l.files|) < f.last <= l.written
    ensures var l' := l.(files := l.files + [f]);
            && FilesOk(l') && Grows(l, l') && Emitted(l') == Emitted(l) && Ranges(l') == Ranges(l)
  {
    RangesAreLocal(l.files, [f], l.first, l.arrived);
  }

  lemma AnnounceKeeps(w: World, last: nat, ranged: bool)
    requires Inv(w) && Enabled(w, Announce(last, ranged))
    ensures Inv(Next(w, Announce(last, ranged)))
  {
    hide RowsHeld, DocOk, SourceOk, CheckpointsOk, FilesOk, CommitsOk, ObjectsOk, PrefixesOk, NumberingOk, PrefixOf, Emitted, Ranges, Grows;
    var l := w.live.value;
    AnnounceKeepsFiles(l, File(last, ranged));
    StagingKeeps(w, l, l.(files := l.files + [File(last, ranged)]));
  }

  /** A file that just arrived is not acknowledged, so the prefix stays. */
  lemma ArriveKeepsFiles(l: Live)
    requires FilesOk(l) && l.arrived < |l.files|
    ensures FilesOk(l.(arrived := l.arrived + 1)) && Grows(l, l.(arrived := l.arrived + 1))
  {
  }

  lemma ArriveKeepsPrefix(l: Live)
    requires FilesOk(l) && l.arrived < |l.files|
    ensures var l' := l.(arrived := l.arrived + 1);
            PrefixOf(Emitted(l'), Ranges(l'), l'.acked) == PrefixOf(Emitted(l), Ranges(l), l.acked)
  {
    hide FilesOk, PrefixOf;
    var l' := l.(arrived := l.arrived + 1);
    NewestIsUnacked(l);
    hide Ranges;
    AnUnackedFileChangesNothing(Emitted(l), Ranges(l), l.acked, l.first + l.arrived, Ranges(l'));
  }

  lemma NewestIsUnacked(l: Live)
    requires FilesOk(l) && l.arrived < |l.files|
    ensures l.first + l.arrived !in l.acked && l.arrived <= |l.files|
    ensures var l' := l.(arrived := l.arrived + 1);
            && Emitted(l') == Emitted(l) + [l.first + l.arrived]
            && forall p :: p in Emitted(l) ==> (p in Ranges(l) <==> p in Ranges(l')) && (p in Ranges(l) ==> Ranges(l)[p] == Ranges(l')[p])
  {
    hide RangesOf;
  }

  lemma ArriveKeeps(w: World)
    requires Inv(w) && Enabled(w, Arrive)
    ensures Inv(Next(w, Arrive))
  {
    hide RowsHeld, DocOk, SourceOk, CheckpointsOk, FilesOk, CommitsOk, ObjectsOk, PrefixesOk, NumberingOk, PrefixOf, Emitted, Ranges, Grows;
    var l := w.live.value;
    ArriveKeepsFiles(l);
    ArriveKeepsPrefix(l);
    StagingKeeps(w, l, l.(arrived := l.arrived + 1));
  }

  lemma ArrivedAreFiles(l: Live)
    requires FilesOk(l)
    ensures l.arrived <= |l.files|
  {
  }

  lemma CommitKeepsCommits(landed: set<nat>, l: Live, n: nat)
    requires FilesOk(l) && CommitsOk(landed, l) && n <= l.written <= |l.cuts| && (l.run.withSink ==> n <= End(l.files, |l.files|))
    ensures var landed' := if l.run.withSink then landed else landed + Interval(l.base, Upto(l, n));
            var l' := l.(commits := l.commits + [n]);
            FilesOk(l') && Grows(l, l') && CommitsOk(landed', l')
  {
    var landed' := if l.run.withSink then landed else landed + Interval(l.base, Upto(l, n));
    var l' := l.(commits := l.commits + [n]);
    assert CommitOk(landed', l', n);
    forall m: nat | CommitOk(landed, l, m) ensures CommitOk(landed', l', m) {
      CommitStays(landed, landed', l, l', m);
    }
    hide CommitOk;
  }

  lemma MoreLandedHolds(table: seq<Cursor>, landed: set<nat>, landed': set<nat>, target: map<Key, set<nat>>,
                        doc: Option<SS.Doc>, used: set<nat>)
    requires RowsHeld(table, landed, target, doc, used) && landed <= landed'
    ensures RowsHeld(table, landed', target, doc, used)
  {
  }

  lemma CommitKeeps(w: World, n: nat)
    requires Inv(w) && Enabled(w, Commit(n))
    ensures Inv(Next(w, Commit(n)))
  {
    ArrivedAreFiles(w.live.value);
    hide RowsHeld, DocOk, SourceOk, CheckpointsOk, FilesOk, CommitsOk, ObjectsOk, PrefixesOk, NumberingOk, PrefixOf, Emitted, Ranges, Grows;
    var l := w.live.value;
    var w' := Next(w, Commit(n));
    var l' := w'.live.value;
    CommitKeepsCommits(w.landed, l, n);
    DestinationFrame(w, l, l');
    ObjectsStay(w.target, l, l');
    SameView(l, l');
    PrefixesStay(l, l');
    MoreLandedHolds(w.table, w.landed, w'.landed, w.target, w.doc, w.used);
  }

  /** Writing an object loses no held row, if it only adds to it or is not a
      protected one. */
  lemma ObjectWriteHolds(table: seq<Cursor>, landed: set<nat>, target: map<Key, set<nat>>,
                         doc: Option<SS.Doc>, used: set<nat>, key: Key, content: set<nat>)
    requires RowsHeld(table, landed, target, doc, used)
    requires (key in target && target[key] <= content) || !Protected(doc, used, key)
    ensures RowsHeld(table, landed, target[key := content], doc, used)
  {
    var target' := target[key := content];
    forall i | 0 <= i < |table| && AtOrBelow(table[i], Mark(doc)) ensures HeldIn(landed, target', doc, used, i) {
      assert HeldIn(landed, target, doc, used, i);
      if i !in landed {
        var k :| k in target && i in target[k] && Protected(doc, used, k);
        assert k in target' && i in target'[k];
      }
    }
  }

  /** A file of the live run that is not acknowledged is not a protected object. */
  lemma UnackedIsUnprotected(w: World, l: Live, p: Path)
    requires NumberingOk(w.doc, w.used, l) && PrefixOk(l, l.sup.delivered) && l.run.withSink
    requires l.first <= p && p !in l.acked
    ensures !Protected(w.doc, w.used, Key(l.run.runId, p))
  {
  }

  lemma UploadKeepsObjects(target: map<Key, set<nat>>, l: Live, k: nat, content: set<nat>)
    requires FilesOk(l) && ObjectsOk(target, l) && k < l.arrived && l.first + k !in l.acked && CutsFit(l)
    requires content <= FileRows(l, k)
    ensures var l' := l.(staged := l.staged + {l.first + k});
            FilesOk(l') && ObjectsOk(target[Key(l.run.runId, l.first + k) := content], l')
  {
    hide FilesOk, Grows, AckedOk, StagedOk, FileRows;
    var l' := l.(staged := l.staged + {l.first + k});
    var target' := target[Key(l.run.runId, l.first + k) := content];
    StagingGrows(l, l');
    forall p | p in l'.acked ensures AckedOk(target', l', p) {
      ObjectStays(target, target', l, l', p);
    }
    forall p | p in l'.staged ensures StagedOk(target', l', p) {
      if p == l.first + k {
        PartIsStaged(target', l, l', k);
      } else {
        ObjectStays(target, target', l, l', p);
      }
    }
  }

  lemma PartIsStaged(target: map<Key, set<nat>>, l: Live, l': Live, k: nat)
    requires FilesOk(l) && FilesOk(l') && CutsFit(l) && k < l.arrived
    requires l' == l.(acked := l'.acked, staged := l'.staged, through := l'.through, prefixes := l'.prefixes)
    requires Key(l.run.runId, l.first + k) in target && target[Key(l.run.runId, l.first + k)] <= FileRows(l, k)
    ensures StagedOk(target, l', l.first + k)
    ensures target[Key(l.run.runId, l.first + k)] == FileRows(l, k) ==> AckedOk(target, l', l.first + k)
  {
    FilesFacts(l);
    hide FilesOk, FileRows;
    SameFileRows(l, l', k);
  }

  /** Writing objects is nothing to the source, the supervisor and the ledger. */
  lemma StagedFrame(w: World, l: Live, l': Live)
    requires LiveOk(w, l) && l' == l.(staged := l'.staged) && FilesOk(l') && Grows(l, l')
    ensures SourceOk(w.table, l') && CheckpointsOk(w.table, l', w.doc) && NumberingOk(w.doc, w.used, l')
    ensures CommitsOk(w.landed, l') && PrefixesOk(l')
  {
    ArrivedAreFiles(l);
    hide SourceOk, CheckpointsOk, NumberingOk, FilesOk, CommitsOk, ObjectsOk, PrefixesOk, Grows, PrefixOf, Emitted, Ranges;
    DestinationFrame(w, l, l');
    CommitsStay(w.landed, w.landed, l, l');
    SameView(l, l');
    PrefixesStay(l, l');
  }

  lemma UploadKeeps(w: World, k: nat, content: set<nat>)
    requires Inv(w) && Enabled(w, Upload(k, content))
    ensures Inv(Next(w, Upload(k, content)))
  {
    hide RowsHeld, DocOk, SourceOk, CheckpointsOk, CommitsOk, ObjectsOk, PrefixesOk, NumberingOk, FilesOk, PrefixOf, FileRows, CommitOk, Protected, Grows;
    var l := w.live.value;
    var l' := l.(staged := l.staged + {l.first + k});
    StagingGrows(l, l');
    FilesFacts(l);
    SinkHasFiles(l, k);
    DeliveredIsOk(l);
    UploadKeepsObjects(w.target, l, k, content);
    StagedFrame(w, l, l');
    UnackedIsUnprotected(w, l, l.first + k);
    ObjectWriteHolds(w.table, w.landed, w.target, w.doc, w.used, Key(l.run.runId, l.first + k), content);
  }

  lemma StagingGrows(l: Live, l': Live)
    requires FilesOk(l) && l' == l.(staged := l'.staged)
    ensures FilesOk(l') && Grows(l, l')
  {
  }

  /** While every file of the leading run carries its range, it reaches its last batch. */
  lemma {:induction false} ReachIsEnd(l: Live, k: nat)
    requires FilesOk(l) && k <= l.arrived
    requires forall j :: 0 <= j < k ==> l.files[j].ranged
    ensures |Emitted(l)| == l.arrived && Reach(Emitted(l), Ranges(l), k) == End(l.files, k)
  {
    hide Emitted, Ranges;
    if k > 0 {
      ReachIsEnd(l, k - 1);
      FilesIncrease(l, k);
      FileIsListed(l, k - 1);
    }
  }

  /** A ranged file as the ledger knows it. */
  lemma FileIsListed(l: Live, k: nat)
    requires k < l.arrived <= |l.files| && l.files[k].ranged
    ensures |Emitted(l)| == l.arrived && Emitted(l)[k] == l.first + k
    ensures l.first + k in Ranges(l) && Ranges(l)[l.first + k] == Range(End(l.files, k) + 1, l.files[k].last)
  {
  }

  lemma FilesIncrease(l: Live, k: nat)
    requires FilesOk(l) && 0 < k <= |l.files|
    ensures End(l.files, k - 1) <= End(l.files, k) == l.files[k - 1].last
  {
  }

  lemma PublishedPrefixIsOk(l: Live)
    requires FilesOk(l)
    ensures PrefixOk(l, PrefixOf(Emitted(l), Ranges(l), l.acked))
  {
    var d := PrefixOf(Emitted(l), Ranges(l), l.acked);
    forall j | 0 <= j < d.objects ensures l.files[j].ranged && Emitted(l)[j] in l.acked {
      assert Extends(Emitted(l), Ranges(l), l.acked, j);
    }
    forall p | l.first <= p < l.first + d.objects ensures p in l.acked {
      assert Emitted(l)[p - l.first] == p;
    }
    ReachIsEnd(l, d.objects);
  }

  lemma AckKeepsFiles(l: Live, p: Path)
    requires FilesOk(l) && l.first <= p < l.first + l.arrived
    ensures var m := l.(acked := l.acked + {p}, staged := l.staged + {p});
            FilesOk(m) && Grows(l, m)
  {
  }

  lemma AckAdvances(l: Live, p: Path)
    requires l.arrived <= |l.files|
    ensures var m := l.(acked := l.acked + {p}, staged := l.staged + {p});
            PrefixOf(Emitted(l), Ranges(l), l.acked).through <= PrefixOf(Emitted(m), Ranges(m), m.acked).through
  {
    var m := l.(acked := l.acked + {p}, staged := l.staged + {p});
    SameView(l, m);
    hide PrefixOf, Ranges, Emitted;
    PrefixNeverMovesBack(Emitted(l), Ranges(l), l.acked, Emitted(m), Ranges(m), m.acked);
  }

  /** The ledger after an acknowledgement that gave the prefix `d`. */
  function Publish(l: Live, m: Live, d: Delivered): Live {
    m.(through := Max(l.through, d.through), prefixes := if d.through > l.through then l.prefixes + [d] else l.prefixes)
  }

  lemma PublishKeepsFiles(l: Live, m: Live, d: Delivered)
    requires FilesOk(m) && Grows(l, m)
    ensures FilesOk(Publish(l, m, d)) && Grows(l, Publish(l, m, d)) && Grows(m, Publish(l, m, d))
  {
  }

  lemma PublishKeeps(l: Live, m: Live, d: Delivered)
    requires FilesOk(l) && PrefixesOk(l) && FilesOk(m) && Grows(l, m)
    requires m == l.(acked := m.acked, staged := m.staged) && PrefixOk(m, d)
    requires d == PrefixOf(Emitted(m), Ranges(m), m.acked) && l.through <= d.through
    ensures FilesOk(Publish(l, m, d)) && PrefixesOk(Publish(l, m, d))
  {
    hide FilesOk, Grows, PrefixOf, Emitted, Ranges, PrefixOk;
    var l' := Publish(l, m, d);
    PublishKeepsFiles(l, m, d);
    SameView(m, l');
    PrefixStays(m, l', d);
    PrefixStays(l, l', l.sup.delivered);
    forall i | 0 <= i < |l.prefixes| ensures PrefixOk(l', l.prefixes[i]) {
      PrefixStays(l, l', l.prefixes[i]);
    }
  }

  lemma AckKeepsObjects(target: map<Key, set<nat>>, l: Live, m: Live, k: nat)
    requires FilesOk(l) && FilesOk(m) && ObjectsOk(target, l) && k < l.arrived <= |l.files| && CutsFit(l) && Grows(l, m)
    requires m == l.(acked := l.acked + {l.first + k}, staged := l.staged + {l.first + k}, through := m.through, prefixes := m.prefixes)
    ensures ObjectsOk(target[Key(l.run.runId, l.first + k) := FileRows(l, k)], m)
  {
    hide FileRows, FilesOk, Grows, AckedOk, StagedOk;
    var target' := target[Key(l.run.runId, l.first + k) := FileRows(l, k)];
    PartIsStaged(target', l, m, k);
    forall p | p in m.acked ensures AckedOk(target', m, p) {
      if p != l.first + k {
        ObjectStays(target, target', l, m, p);
      }
    }
    forall p | p in m.staged ensures StagedOk(target', m, p) {
      if p != l.first + k {
        ObjectStays(target, target', l, m, p);
      }
    }
  }

  lemma SameFileRows(l: Live, m: Live, k: nat)
    requires CutsFit(l) && m.base == l.base && m.cuts == l.cuts && m.files == l.files && k < |l.files|
    ensures CutsFit(m) && FileRows(m, k) == FileRows(l, k)
  {
  }

  lemma SinkHasFiles(l: Live, k: nat)
    requires FilesOk(l) && k < |l.files|
    ensures l.run.withSink
  {
  }

  lemma AckedRowsStay(w: World, l: Live, k: nat)
    requires FilesOk(l) && ObjectsOk(w.target, l) && PrefixesOk(l) && NumberingOk(w.doc, w.used, l) && k < l.arrived
    requires RowsHeld(w.table, w.landed, w.target, w.doc, w.used)
    ensures RowsHeld(w.table, w.landed, w.target[Key(l.run.runId, l.first + k) := FileRows(l, k)], w.doc, w.used)
  {
    hide FileRows, RowsHeld, Protected, FilesOk, PrefixesOk, PrefixOk, NumberingOk, ObjectsOk;
    FilesFacts(l);
    SinkHasFiles(l, k);
    DeliveredIsOk(l);
    var key := Key(l.run.runId, l.first + k);
    if l.first + k in l.acked {
      AckedObject(w.target, l, k);
    } else {
      UnackedIsUnprotected(w, l, l.first + k);
    }
    ObjectWriteHolds(w.table, w.landed, w.target, w.doc, w.used, key, FileRows(l, k));
  }

  lemma AckedObject(target: map<Key, set<nat>>, l: Live, k: nat)
    requires FilesOk(l) && ObjectsOk(target, l) && k < |l.files| && l.first + k in l.acked
    ensures CutsFit(l) && Key(l.run.runId, l.first + k) in target && target[Key(l.run.runId, l.first + k)] == FileRows(l, k)
  {
  }

  lemma AckKeeps(w: World, k: nat)
    requires Inv(w) && Enabled(w, Ack(k))
    ensures Inv(Next(w, Ack(k)))
  {
    hide RowsHeld, DocOk, SourceOk, CheckpointsOk, FilesOk, CommitsOk, ObjectsOk, PrefixesOk, NumberingOk, PrefixOf, Emitted, Ranges, Grows, PrefixOk, FileRows;
    var l := w.live.value;
    var p := l.first + k;
    var m := l.(acked := l.acked + {p}, staged := l.staged + {p});
    var d := PrefixOf(Emitted(m), Ranges(m), m.acked);
    var l' := Next(w, Ack(k)).live.value;
    AckKeepsFiles(l, p);
    AckAdvances(l, p);
    PublishedPrefixIsOk(m);
    ThroughIsPrefix(l);
    PublishKeeps(l, m, d);
    PublishKeepsFiles(l, m, d);
    assert l' == Publish(l, m, d);
    CommitsStay(w.landed, w.landed, l, l');
    AckKeepsObjects(w.target, l, l', k);
    AckedRowsStay(w, l, k);
    DestinationFrame(w, l, l');
  }

  lemma ThroughIsPrefix(l: Live)
    requires FilesOk(l) && PrefixesOk(l)
    ensures l.through == PrefixOf(Emitted(l), Ranges(l), l.acked).through
  {
  }

  // ----- the supervisor -------------------------------------------------------

  /** What the supervisor does not touch. */
  lemma SupervisorFrame(table: seq<Cursor>, target: map<Key, set<nat>>, l: Live, l': Live)
    requires l' == l.(sup := l'.sup, checkpoints := l'.checkpoints, commits := l'.commits, prefixes := l'.prefixes)
    requires SourceOk(table, l) && FilesOk(l) && ObjectsOk(target, l)
    ensures SourceOk(table, l') && FilesOk(l') && Grows(l, l') && ObjectsOk(target, l')
  {
    assert WatermarkNow(table, l') == WatermarkNow(table, l);
    hide WatermarkNow;
    ObjectsFrame(target, l, l');
    hide FileRows;
  }

  lemma ObjectsFrame(target: map<Key, set<nat>>, l: Live, l': Live)
    requires l' == l.(sup := l'.sup, checkpoints := l'.checkpoints, commits := l'.commits, prefixes := l'.prefixes)
    requires FilesOk(l) && ObjectsOk(target, l)
    ensures FilesOk(l') && ObjectsOk(target, l')
  {
    assert FilesOk(l') && Grows(l, l');
    ObjectsStay(target, l, l');
  }

  lemma AbsorbCheckpoint(table: seq<Cursor>, l: Live, doc: Option<SS.Doc>)
    requires CheckpointsOk(table, l, doc) && l.checkpoints != []
    ensures CheckpointsOk(table, l.(checkpoints := l.checkpoints[1..],
                                    sup := SS.Absorb(l.sup, SS.Reported(l.checkpoints[0]))), doc)
  {
    var l' := l.(checkpoints := l.checkpoints[1..], sup := SS.Absorb(l.sup, SS.Reported(l.checkpoints[0])));
    assert forall c: Checkpoint {:trigger CheckpointOk(table, l', c)} :: CheckpointOk(table, l, c) ==> CheckpointOk(table, l', c);
    assert CheckpointOk(table, l, l.checkpoints[0]) ==> Before(l.checkpoints[0], l.checkpoints[0]);
    AbsorbKeepsOrder(l.sup.at, l.checkpoints);
    hide CheckpointOk, Before;
  }

  /** The checkpoints received and those queued are in one order. */
  predicate InOneOrder(at: map<nat, Checkpoint>, q: seq<Checkpoint>) {
    && (forall b :: b in at ==> at[b].batchSeq == b)
    && (forall i, j :: 0 <= i < j < |q| ==> Before(q[i], q[j]))
    && (forall b, i :: b in at && 0 <= i < |q| ==> Before(at[b], q[i]))
    && (forall a, b :: a in at && b in at && a <= b ==> Before(at[a], at[b]))
  }

  lemma AbsorbKeepsOrder(at: map<nat, Checkpoint>, q: seq<Checkpoint>)
    requires InOneOrder(at, q) && q != [] && Before(q[0], q[0])
    ensures InOneOrder(at[q[0].batchSeq := q[0]], q[1..])
  {
    assert forall b :: b in at ==> Before(at[b], q[0]) && b <= q[0].batchSeq;
    hide Before;
  }

  lemma CheckpointsFrame(table: seq<Cursor>, l: Live, l': Live, doc: Option<SS.Doc>)
    requires CheckpointsOk(table, l, doc)
    requires l' == l.(commits := l'.commits, prefixes := l'.prefixes, sup := l'.sup)
    requires l'.sup.at == l.sup.at && l'.sup.lastPersisted == l.sup.lastPersisted
    ensures CheckpointsOk(table, l', doc)
  {
    assert forall c: Checkpoint {:trigger CheckpointOk(table, l', c)} :: CheckpointOk(table, l, c) ==> CheckpointOk(table, l', c);
    hide CheckpointOk, Before;
  }

  lemma AbsorbCommit(landed: set<nat>, l: Live)
    requires FilesOk(l) && CommitsOk(landed, l) && l.commits != []
    ensures var l' := l.(commits := l.commits[1..], sup := SS.Absorb(l.sup, SS.Committed(l.commits[0])));
            FilesOk(l') && CommitsOk(landed, l')
  {
    var l' := l.(commits := l.commits[1..], sup := SS.Absorb(l.sup, SS.Committed(l.commits[0])));
    assert forall n: nat {:trigger CommitOk(landed, l', n)} :: CommitOk(landed, l, n) ==> CommitOk(landed, l', n);
    hide CommitOk;
  }

  lemma AbsorbPrefix(l: Live)
    requires FilesOk(l) && PrefixesOk(l) && l.prefixes != []
    ensures var l' := l.(prefixes := l.prefixes[1..], sup := SS.Absorb(l.sup, SS.Prefix(l.prefixes[0])));
            FilesOk(l') && PrefixesOk(l') && l.sup.delivered.objects <= l'.sup.delivered.objects
  {
    var l' := l.(prefixes := l.prefixes[1..], sup := SS.Absorb(l.sup, SS.Prefix(l.prefixes[0])));
    hide PrefixOf, Emitted, Ranges, End;
    PrefixesFacts(l);
    FurtherPrefix(l, l.sup.delivered, l.prefixes[0]);
    SameView(l, l');
    assert FilesOk(l');
    TailIncreases(l.prefixes);
    forall i | 0 <= i < |l.prefixes| ensures PrefixOk(l', l.prefixes[i]) {
      SamePrefix(l, l', l.prefixes[i]);
    }
    hide PrefixOk, FilesOk;
  }

  lemma PrefixesFacts(l: Live)
    requires FilesOk(l) && PrefixesOk(l)
    ensures PrefixOk(l, l.sup.delivered) && forall i :: 0 <= i < |l.prefixes| ==> PrefixOk(l, l.prefixes[i])
  {
  }

  lemma SamePrefix(l: Live, l': Live, d: Delivered)
    requires PrefixOk(l, d) && l'.arrived == l.arrived && l'.files == l.files && l'.first == l.first && l'.acked == l.acked
    ensures PrefixOk(l', d)
  {
  }

  lemma TailIncreases(p: seq<Delivered>)
    requires p != [] && forall i, j :: 0 <= i < j < |p| ==> p[i].through < p[j].through
    ensures forall i, j :: 0 <= i < j < |p[1..]| ==> p[1..][i].through < p[1..][j].through
    ensures forall i :: 0 <= i < |p[1..]| ==> p[0].through < p[1..][i].through
  {
  }

  /** A prefix that reaches further holds more files. */
  lemma FurtherPrefix(l: Live, d: Delivered, e: Delivered)
    requires FilesOk(l) && PrefixOk(l, d) && PrefixOk(l, e) && d.through <= e.through
    ensures d.objects <= e.objects
  {
  }

  lemma ReceiveCheckpointAbsorbs(w: World, l: Live)
    requires LiveOk(w, l) && l.checkpoints != []
    ensures LiveOk(w, l.(checkpoints := l.checkpoints[1..], sup := SS.Absorb(l.sup, SS.Reported(l.checkpoints[0]))))
  {
    hide SourceOk, CheckpointsOk, FilesOk, CommitsOk, ObjectsOk, PrefixesOk, Grows, PrefixOf, Emitted, Ranges;
    var l' := l.(checkpoints := l.checkpoints[1..], sup := SS.Absorb(l.sup, SS.Reported(l.checkpoints[0])));
    SupervisorFrame(w.table, w.target, l, l');
    AbsorbCheckpoint(w.table, l, w.doc);
    CommitsStay(w.landed, w.landed, l, l');
    ArrivedAreFiles(l);
    SameView(l, l');
    PrefixesStay(l, l');
  }

  lemma ReceiveCommitAbsorbs(w: World, l: Live)
    requires LiveOk(w, l) && l.commits != []
    ensures LiveOk(w, l.(commits := l.commits[1..], sup := SS.Absorb(l.sup, SS.Committed(l.commits[0]))))
  {
    hide SourceOk, CheckpointsOk, FilesOk, CommitsOk, ObjectsOk, PrefixesOk, Grows, PrefixOf, Emitted, Ranges;
    var l' := l.(commits := l.commits[1..], sup := SS.Absorb(l.sup, SS.Committed(l.commits[0])));
    SupervisorFrame(w.table, w.target, l, l');
    CheckpointsFrame(w.table, l, l', w.doc);
    AbsorbCommit(w.landed, l);
    ArrivedAreFiles(l);
    SameView(l, l');
    PrefixesStay(l, l');
  }

  lemma ReceivePrefixAbsorbs(w: World, l: Live)
    requires LiveOk(w, l) && l.prefixes != []
    ensures LiveOk(w, l.(prefixes := l.prefixes[1..], sup := SS.Absorb(l.sup, SS.Prefix(l.prefixes[0]))))
  {
    hide SourceOk, CheckpointsOk, FilesOk, CommitsOk, ObjectsOk, PrefixesOk, Grows, PrefixOf, Emitted, Ranges;
    var l' := l.(prefixes := l.prefixes[1..], sup := SS.Absorb(l.sup, SS.Prefix(l.prefixes[0])));
    SupervisorFrame(w.table, w.target, l, l');
    CheckpointsFrame(w.table, l, l', w.doc);
    CommitsStay(w.landed, w.landed, l, l');
    AbsorbPrefix(l);
  }

  // ----- storing a document -----------------------------------------------------

  /** A row read by batch `b` is in one of the files that hold `1..=b`. */
  lemma {:induction false} FileOfRow(l: Live, n: nat, row: nat) returns (k: nat)
    requires FilesOk(l) && n <= |l.files| && l.base <= row < Upto(l, End(l.files, n))
    ensures k < n && row in FileRows(l, k)
  {
    if Upto(l, End(l.files, n - 1)) <= row {
      k := n - 1;
    } else {
      k := FileOfRow(l, n - 1, row);
    }
  }

  /** The first `n` files were acknowledged, and hold every row read below `u`. */
  predicate DeliveredThrough(l: Live, n: nat, u: nat) {
    && n <= |l.files| && End(l.files, n) <= |l.cuts| && u <= Upto(l, End(l.files, n))
    && forall p :: l.first <= p < l.first + n ==> p in l.acked
  }

  /** Every row read below `u` is held once `doc` is the document. */
  ghost predicate ReadRowsHeld(w: World, l: Live, doc: SS.Doc, u: nat) {
    forall i :: l.base <= i < u ==> HeldIn(w.landed, w.target, Some(doc), w.used + {l.run.runId}, i)
  }

  lemma DeliveredRowsHeld(w: World, l: Live, doc: SS.Doc, u: nat, n: nat)
    requires FilesOk(l) && ObjectsOk(w.target, l)
    requires DeliveredThrough(l, n, u)
    requires doc.resume.Some? ==> doc.resume.value.runId == l.run.runId
                                  && doc.resume.value.nextObjectSeq.Some? && l.first + n <= doc.resume.value.nextObjectSeq.value
    ensures ReadRowsHeld(w, l, doc, u)
  {
    forall i | l.base <= i < u
      ensures HeldIn(w.landed, w.target, Some(doc), w.used + {l.run.runId}, i)
    {
      var k := FileOfRow(l, n, i);
      var key := Key(l.run.runId, l.first + k);
      assert l.first + k in l.acked && AckedOk(w.target, l, l.first + k);
      assert key in w.target && w.target[key] == FileRows(l, k);
      assert Protected(Some(doc), w.used + {l.run.runId}, key);
    }
  }

  lemma LandedRowsHeld(w: World, l: Live, doc: SS.Doc, b: nat, n: nat)
    requires CommitOk(w.landed, l, n) && !l.run.withSink && b <= n <= |l.cuts| && SourceOk(w.table, l)
    ensures ReadRowsHeld(w, l, doc, Upto(l, b))
  {
    assert Upto(l, b) <= Upto(l, n);
  }

  /** What was held before the run stays held: the new document protects at
      least what the old one did. */
  lemma EarlierRowsHeld(w: World, l: Live, doc: SS.Doc, i: nat)
    requires NumberingOk(w.doc, w.used, l) && Held(w, i)
    requires doc.resume.Some? ==>
               && l.run.withSink && doc.resume.value.runId == l.run.runId
               && doc.resume.value.nextObjectSeq.Some? && doc.resume.value.token.None?
               && l.first + l.sup.delivered.objects <= doc.resume.value.nextObjectSeq.value
    ensures HeldIn(w.landed, w.target, Some(doc), w.used + {l.run.runId}, i)
  {
    if i !in w.landed {
      var key :| key in w.target && i in w.target[key] && Protected(w.doc, w.used, key);
      assert Protected(Some(doc), w.used + {l.run.runId}, key);
    }
  }

  /** Storing a checkpoint whose rows are held keeps every row at or below the
      watermark held. */
  lemma StoreKeepsRows(w: World, l: Live, c: Checkpoint, doc: SS.Doc, u: nat)
    requires Ascending(w.table) && SourceOk(w.table, l) && CheckpointOk(w.table, l, c)
    requires RowsHeld(w.table, w.landed, w.target, w.doc, w.used) && NumberingOk(w.doc, w.used, l)
    requires l.start.Some? ==> Mark(w.doc).Some? && l.start.value <= Mark(w.doc).value
    requires forall i :: 0 <= i < |w.table| && w.table[i] <= c.cursor.value ==> i < u
    requires doc.cursor == c.cursor && ReadRowsHeld(w, l, doc, u)
    requires doc.resume.Some? ==>
               && l.run.withSink && doc.resume.value.runId == l.run.runId
               && doc.resume.value.nextObjectSeq.Some? && doc.resume.value.token.None?
               && l.first + l.sup.delivered.objects <= doc.resume.value.nextObjectSeq.value
    ensures RowsHeld(w.table, w.landed, w.target, Some(doc), w.used + {l.run.runId})
    ensures DocOk(w.table, Some(doc), w.used + {l.run.runId})
  {
    forall i | 0 <= i < |w.table| && AtOrBelow(w.table[i], doc.cursor)
      ensures HeldIn(w.landed, w.target, Some(doc), w.used + {l.run.runId}, i)
    {
      if i < l.base {
        assert AtOrBelow(w.table[i], Mark(w.doc));
        assert Held(w, i);
        EarlierRowsHeld(w, l, doc, i);
      }
    }
    hide HeldIn, ReadRowsHeld, RowsHeld, NumberingOk;
    var i :| 0 <= i < l.limit <= |w.table| && w.table[i] == c.cursor.value;
  }

  /** The document stored for checkpoint `c` when the run has not succeeded. */
  function Unfinished(l: Live, c: Checkpoint): SS.Doc {
    SS.Doc(c.cursor, l.run.runId, SS.RecordFor(l.run, c, SS.SinkProgress(l.run, l.sup)))
  }

  lemma UnfinishedRecord(w: World, l: Live, c: Checkpoint)
    requires NumberingOk(w.doc, w.used, l) && c.token.None?
    ensures var r := Unfinished(l, c).resume;
            if l.run.withSink then
              && r.Some? && r.value.runId == l.run.runId
              && r.value.nextObjectSeq == Some(l.first + l.sup.delivered.objects) && r.value.token.None?
            else r.None?
  {
  }

  lemma SafeIsOk(table: seq<Cursor>, l: Live, doc: Option<SS.Doc>, frontier: nat)
    requires CheckpointsOk(table, l, doc) && SS.SafeCheckpoint(l.sup.at, frontier).Some?
    ensures var c := SS.SafeCheckpoint(l.sup.at, frontier).value;
            && CheckpointOk(table, l, c) && c.batchSeq <= frontier
            && c.batchSeq in l.sup.at && l.sup.at[c.batchSeq] == c
            && (l.sup.lastPersisted <= c.batchSeq && Mark(doc).Some? ==> AtOrBelow(Mark(doc).value, c.cursor))
  {
  }

  lemma FrontierIsHeld(w: World, l: Live, c: Checkpoint)
    requires SourceOk(w.table, l) && FilesOk(l) && ObjectsOk(w.target, l) && CommitsOk(w.landed, l)
    requires PrefixOk(l, l.sup.delivered)
    requires NumberingOk(w.doc, w.used, l) && CheckpointOk(w.table, l, c) && c.batchSeq <= SS.Frontier(l.run, l.sup)
    ensures ReadRowsHeld(w, l, Unfinished(l, c), Upto(l, c.batchSeq))
  {
    UnfinishedRecord(w, l, c);
    if l.run.withSink {
      UptoGrows(w.table, l, c.batchSeq, l.sup.delivered.through);
      assert DeliveredThrough(l, l.sup.delivered.objects, Upto(l, c.batchSeq));
      hide ObjectsOk, SourceOk, FilesOk, PrefixOk, CommitsOk, NumberingOk, DeliveredThrough, ReadRowsHeld;
      DeliveredRowsHeld(w, l, Unfinished(l, c), Upto(l, c.batchSeq), l.sup.delivered.objects);
    } else {
      hide ObjectsOk, SourceOk, FilesOk, PrefixOk, NumberingOk, ReadRowsHeld, CommitOk;
      LandedRowsHeld(w, l, Unfinished(l, c), c.batchSeq, l.sup.durable);
    }
  }

  lemma UptoGrows(table: seq<Cursor>, l: Live, a: nat, b: nat)
    requires SourceOk(table, l) && a <= b <= |l.cuts|
    ensures Upto(l, a) <= Upto(l, b)
  {
  }

  lemma StoredKeepsCheckpoints(table: seq<Cursor>, l: Live, doc: Option<SS.Doc>, c: Checkpoint, doc': SS.Doc, written: bool)
    requires CheckpointsOk(table, l, doc) && CheckpointOk(table, l, c)
    requires c.batchSeq in l.sup.at && l.sup.at[c.batchSeq] == c && doc'.cursor == c.cursor
    ensures CheckpointsOk(table, l.(sup := l.sup.(lastPersisted := c.batchSeq, recordWritten := written)), Some(doc'))
  {
    var l' := l.(sup := l.sup.(lastPersisted := c.batchSeq, recordWritten := written));
    assert forall d: Checkpoint {:trigger CheckpointOk(table, l', d)} :: CheckpointOk(table, l, d) ==> CheckpointOk(table, l', d);
    assert 0 < c.batchSeq;
    hide Before;
  }

  lemma StoredKeepsNumbering(w: World, l: Live, c: Checkpoint, written: bool)
    requires NumberingOk(w.doc, w.used, l) && c.token.None?
    ensures NumberingOk(Some(Unfinished(l, c)), w.used + {l.run.runId},
                        l.(sup := l.sup.(lastPersisted := c.batchSeq, recordWritten := written)))
  {
    UnfinishedRecord(w, l, c);
  }

  lemma MaybePersistKeeps(w: World, l: Live)
    requires Inv(w) && w.live == Some(l)
    ensures var act := SS.MaybePersist(l.run, l.sup);
            Inv(Persisted(w, l.run.runId, act).(live := Some(l.(sup := act.state))))
  {
    hide RowsHeld, DocOk, SourceOk, CheckpointsOk, FilesOk, CommitsOk, ObjectsOk, PrefixesOk, NumberingOk, Grows, Emitted, Ranges,
      PrefixOf, ReadRowsHeld, SS.RecordFor, SS.Frontier, SS.SafeCheckpoint;
    var act := SS.MaybePersist(l.run, l.sup);
    if act.store.Some? {
      var c := SS.SafeCheckpoint(l.sup.at, SS.Frontier(l.run, l.sup)).value;
      var l' := l.(sup := act.state);
      SafeIsOk(w.table, l, w.doc, SS.Frontier(l.run, l.sup));
      DeliveredIsOk(l);
      FrontierIsHeld(w, l, c);
      StartIsBelow(w, l);
      CheckpointHasNoToken(w.table, l, c);
      UnfinishedRecord(w, l, c);
      CheckpointRows(w.table, l, c);
      hide CheckpointOk;
      StoreKeepsRows(w, l, c, Unfinished(l, c), Upto(l, c.batchSeq));
      StoredKeepsCheckpoints(w.table, l, w.doc, c, Unfinished(l, c), act.state.recordWritten);
      StoredKeepsNumbering(w, l, c, act.state.recordWritten);
      SupervisorFrame(w.table, w.target, l, l');
      CommitsStay(w.landed, w.landed, l, l');
      ArrivedAreFiles(l);
      SameView(l, l');
      PrefixesStay(l, l');
    }
  }

  lemma DeliveredIsOk(l: Live)
    requires FilesOk(l) && PrefixesOk(l)
    ensures PrefixOk(l, l.sup.delivered)
  {
  }

  lemma CheckpointRows(table: seq<Cursor>, l: Live, c: Checkpoint)
    requires CheckpointOk(table, l, c)
    ensures c.batchSeq <= |l.cuts| && c.cursor.Some?
    ensures forall i :: 0 <= i < |table| && table[i] <= c.cursor.value ==> i < Upto(l, c.batchSeq)
  {
  }

  lemma CheckpointHasNoToken(table: seq<Cursor>, l: Live, c: Checkpoint)
    requires CheckpointOk(table, l, c)
    ensures c.token.None?
  {
  }

  lemma ReceiveKeeps(w: World, s: Step)
    requires s.ReceiveCheckpoint? || s.ReceiveCommit? || s.ReceivePrefix?
    requires Inv(w) && Enabled(w, s)
    ensures Inv(Next(w, s))
  {
    hide RowsHeld, DocOk, LiveOk, SS.MaybePersist, SS.Absorb;
    var l := w.live.value;
    var l1: Live;
    if s.ReceiveCheckpoint? {
      l1 := l.(checkpoints := l.checkpoints[1..], sup := SS.Absorb(l.sup, SS.Reported(l.checkpoints[0])));
      ReceiveCheckpointAbsorbs(w, l);
    } else if s.ReceiveCommit? {
      l1 := l.(commits := l.commits[1..], sup := SS.Absorb(l.sup, SS.Committed(l.commits[0])));
      ReceiveCommitAbsorbs(w, l);
    } else {
      l1 := l.(prefixes := l.prefixes[1..], sup := SS.Absorb(l.sup, SS.Prefix(l.prefixes[0])));
      ReceivePrefixAbsorbs(w, l);
    }
    LiveOkIgnoresLive(w, Some(l1), l1);
    MaybePersistKeeps(w.(live := Some(l1)), l1);
  }

  lemma LiveOkIgnoresLive(w: World, live: Option<Live>, l: Live)
    ensures LiveOk(w.(live := live), l) == LiveOk(w, l)
  {
  }

  // ----- the end of a run --------------------------------------------------------

  lemma {:induction false} DrainIsLast(d: Delivered, late: seq<Delivered>)
    requires forall i, j :: 0 <= i < j < |late| ==> late[i].through < late[j].through
    requires forall i :: 0 <= i < |late| ==> d.through < late[i].through
    ensures SS.Drain(d, late) == if late == [] then d else late[|late| - 1]
    decreases |late|
  {
    if late != [] {
      DrainIsLast(late[0], late[1..]);
    }
  }

  /** The run as the final flush sees it: every published prefix arrived. */
  function Drained(l: Live): Live {
    l.(prefixes := [], sup := l.sup.(delivered := SS.Drain(l.sup.delivered, l.prefixes)))
  }

  lemma DrainedIsOk(w: World, l: Live)
    requires FilesOk(l) && PrefixesOk(l) && CommitsOk(w.landed, l) && ObjectsOk(w.target, l)
    requires SourceOk(w.table, l) && CheckpointsOk(w.table, l, w.doc) && NumberingOk(w.doc, w.used, l)
    ensures var m := Drained(l);
            && FilesOk(m) && CommitsOk(w.landed, m) && ObjectsOk(w.target, m) && SourceOk(w.table, m)
            && CheckpointsOk(w.table, m, w.doc) && NumberingOk(w.doc, w.used, m)
            && PrefixOk(m, m.sup.delivered) && m.sup.delivered.through == l.through
  {
    hide SourceOk, CheckpointsOk, CommitsOk, ObjectsOk, Grows;
    var m := Drained(l);
    DrainIsLast(l.sup.delivered, l.prefixes);
    var d := m.sup.delivered;
    assert PrefixOk(l, d);
    FurtherPrefix(l, l.sup.delivered, d);
    SupervisorFrame(w.table, w.target, l, m);
    CheckpointsFrame(w.table, l, m, w.doc);
    CommitsStay(w.landed, w.landed, l, m);
  }

  /** A sink that delivered every file, each with its range, delivered every
      committed batch by number. */
  lemma FullDeliveryReachesTheEnd(l: Live)
    requires FilesOk(l) && AllDelivered(l) && forall k :: 0 <= k < |l.files| ==> l.files[k].ranged
    ensures PrefixOf(Emitted(l), Ranges(l), l.acked).through == End(l.files, |l.files|)
  {
    hide End, FilesOk;
    var n := |l.files|;
    forall k | 0 <= k < n ensures Extends(Emitted(l), Ranges(l), l.acked, k) {
      ReachIsEnd(l, k);
      assert Emitted(l)[k] == l.first + k;
    }
    LongestRunIsUnique(Emitted(l), Ranges(l), l.acked, n);
    ReachIsEnd(l, n);
  }

  /** Files that all carry their range are covered once they are all delivered. */
  lemma RangedIsCovered(w: World)
    requires Inv(w) && w.live.Some? && w.live.value.run.withSink && AllDelivered(w.live.value)
    requires forall k :: 0 <= k < |w.live.value.files| ==> w.live.value.files[k].ranged
    ensures Covered(w, w.live.value)
  {
    var l := w.live.value;
    var c := SS.SafeCheckpoint(l.sup.at, l.sup.durable);
    RangedPrefix(w, l);
    hide RowsHeld, DocOk, FilesOk, ObjectsOk, PrefixesOk, NumberingOk, SourceOk, CheckpointsOk, CommitsOk, AllDelivered, LastPrefix,
      SS.SafeCheckpoint, RowsBelow, Upto, End;
    if c.Some? {
      SafeIsOk(w.table, l, w.doc, l.sup.durable);
      CheckpointRows(w.table, l, c.value);
      hide CheckpointOk;
      UptoGrows(w.table, l, c.value.batchSeq, End(l.files, LastPrefix(l).objects));
      RowsBelowAtMost(w.table, c.value.cursor, Upto(l, c.value.batchSeq));
    }
  }

  lemma RowsBelowAtMost(table: seq<Cursor>, mark: Option<Cursor>, u: nat)
    requires Ascending(table) && forall i :: 0 <= i < |table| && AtOrBelow(table[i], mark) ==> i < u
    ensures RowsBelow(table, mark) <= u
  {
    RowsBelowIs(table, mark);
    var n := RowsBelow(table, mark);
    assert n > 0 ==> AtOrBelow(table[n - 1], mark);
  }

  lemma RangedPrefix(w: World, l: Live)
    requires FilesOk(l) && PrefixesOk(l) && CommitsOk(w.landed, l) && l.run.withSink && AllDelivered(l)
    requires forall k :: 0 <= k < |l.files| ==> l.files[k].ranged
    ensures LastPrefix(l).objects <= |l.files| && l.sup.durable <= End(l.files, LastPrefix(l).objects) <= |l.cuts|
  {
    LastPrefixIsOk(l);
    FullDeliveryReachesTheEnd(l);
    hide PrefixOf, Emitted, Ranges, AllDelivered;
  }

  lemma LastPrefixIsOk(l: Live)
    requires FilesOk(l) && PrefixesOk(l)
    ensures PrefixOk(l, LastPrefix(l)) && LastPrefix(l).through == l.through == PrefixOf(Emitted(l), Ranges(l), l.acked).through
  {
    DrainIsLast(l.sup.delivered, l.prefixes);
    hide PrefixOf, Emitted, Ranges;
  }

  /** The rows at or below a covered watermark are in the files that were delivered. */
  lemma CoveredRows(w: World, m: Live, c: Checkpoint)
    requires FilesOk(m) && PrefixOk(m, m.sup.delivered) && Ascending(w.table) && CheckpointOk(w.table, m, c)
    requires End(m.files, m.sup.delivered.objects) <= |m.cuts|
    requires RowsBelow(w.table, c.cursor) <= Upto(m, End(m.files, m.sup.delivered.objects))
    ensures DeliveredThrough(m, m.sup.delivered.objects, RowsBelow(w.table, c.cursor))
    ensures forall i :: 0 <= i < |w.table| && w.table[i] <= c.cursor.value ==> i < RowsBelow(w.table, c.cursor)
  {
    RowsBelowIs(w.table, c.cursor);
  }

  /** The flush of a failed run, once its frontier was chosen: `m` is the run as the flush sees it. */
  lemma FailStores(w: World, m: Live, c: Checkpoint, u: nat)
    requires Ascending(w.table) && DocOk(w.table, w.doc, w.used) && RowsHeld(w.table, w.landed, w.target, w.doc, w.used)
    requires SourceOk(w.table, m) && CheckpointsOk(w.table, m, w.doc) && NumberingOk(w.doc, w.used, m)
    requires CheckpointOk(w.table, m, c) && ReadRowsHeld(w, m, Unfinished(m, c), u)
    requires forall i :: 0 <= i < |w.table| && w.table[i] <= c.cursor.value ==> i < u
    ensures RowsHeld(w.table, w.landed, w.target, Some(Unfinished(m, c)), w.used + {m.run.runId})
    ensures DocOk(w.table, Some(Unfinished(m, c)), w.used + {m.run.runId})
  {
    hide RowsHeld, DocOk, SourceOk, CheckpointsOk, NumberingOk, ReadRowsHeld, SS.RecordFor;
    StartIsBelow(w, m);
    CheckpointHasNoToken(w.table, m, c);
    UnfinishedRecord(w, m, c);
    hide CheckpointOk;
    StoreKeepsRows(w, m, c, Unfinished(m, c), u);
  }

  lemma FailKeeps(w: World, sinkDone: bool)
    requires Inv(w) && Enabled(w, Fail(sinkDone))
    ensures Inv(Next(w, Fail(sinkDone)))
  {
    hide RowsHeld, DocOk, SourceOk, CheckpointsOk, FilesOk, CommitsOk, ObjectsOk, PrefixesOk, NumberingOk, Grows, Emitted, Ranges,
      PrefixOf, ReadRowsHeld, SS.RecordFor, SS.Frontier, SS.SafeCheckpoint, SS.Drain, PrefixOk, AllDelivered, DeliveredThrough, RowsBelow;
    var l := w.live.value;
    var gate := if l.run.withSink then Some(sinkDone) else None;
    var act := SS.Flush(l.run, l.sup, gate, l.prefixes, false);
    if act.store.Some? {
      var m := if l.run.withSink then Drained(l) else l;
      var frontier := if l.run.withSink && !sinkDone then m.sup.delivered.through else m.sup.durable;
      var c := SS.SafeCheckpoint(m.sup.at, frontier).value;
      DrainedIsOk(w, l);
      DeliveredIsOk(l);
      SafeIsOk(w.table, m, w.doc, frontier);
      CheckpointRows(w.table, m, c);
      if sinkDone {
        hide CheckpointOk;
        CoveredRows(w, m, c);
        CheckpointHasNoToken(w.table, m, c);
        UnfinishedRecord(w, m, c);
        DeliveredRowsHeld(w, m, Unfinished(m, c), RowsBelow(w.table, c.cursor), m.sup.delivered.objects);
        FailStores(w, m, c, RowsBelow(w.table, c.cursor));
      } else {
        assert c.batchSeq <= SS.Frontier(m.run, m.sup) by {
          PlainFrontier(l);
          SinkFrontier(m);
        }
        FrontierIsHeld(w, m, c);
        hide CheckpointOk;
        FailStores(w, m, c, Upto(m, c.batchSeq));
      }
      assert act.store == Some(Unfinished(m, c));
    }
  }

  lemma SinkFrontier(l: Live)
    ensures l.run.withSink ==> SS.Frontier(l.run, l.sup) == l.sup.delivered.through
  {
  }

  lemma PlainFrontier(l: Live)
    ensures !l.run.withSink ==> SS.Frontier(l.run, l.sup) == l.sup.durable
  {
  }

  /** On success every row read is held, whatever document is stored without a record. */
  lemma SuccessHoldsAllRead(w: World, l: Live, doc: SS.Doc, b: nat)
    requires SourceOk(w.table, l) && FilesOk(l) && ObjectsOk(w.target, l) && CommitsOk(w.landed, l)
    requires doc.resume.None? && b <= l.sup.durable <= |l.cuts| && (l.run.withSink ==> AllDelivered(l))
    ensures ReadRowsHeld(w, l, doc, Upto(l, b))
  {
    if l.run.withSink {
      UptoGrows(w.table, l, b, End(l.files, |l.files|));
      assert DeliveredThrough(l, |l.files|, Upto(l, b));
      hide ObjectsOk, SourceOk, FilesOk, CommitsOk, DeliveredThrough, ReadRowsHeld;
      DeliveredRowsHeld(w, l, doc, Upto(l, b), |l.files|);
    } else {
      hide ObjectsOk, SourceOk, FilesOk, ReadRowsHeld, CommitOk;
      LandedRowsHeld(w, l, doc, b, l.sup.durable);
    }
  }

  /** At the end of a successful run the last safe checkpoint is the last one. */
  lemma SuccessReachesLast(table: seq<Cursor>, l: Live, doc: Option<SS.Doc>)
    requires CheckpointsOk(table, l, doc) && l.sup.durable == |l.cuts|
    ensures var c := SS.SafeCheckpoint(l.sup.at, l.sup.durable);
            if c.Some? then l.sup.lastPersisted <= c.value.batchSeq
            else l.sup.lastPersisted == 0 && Mark(doc) == l.start
  {
    if l.sup.lastPersisted != 0 {
      assert CheckpointOk(table, l, l.sup.at[l.sup.lastPersisted]);
    }
  }

  /** The prior document, stored again without its record: the rows at or
      below the resume value stay held. */
  lemma PriorStays(w: World, l: Live)
    requires Ascending(w.table) && SourceOk(w.table, l) && NumberingOk(w.doc, w.used, l) && DocOk(w.table, w.doc, w.used)
    requires RowsHeld(w.table, w.landed, w.target, w.doc, w.used)
    requires l.start.Some? ==> Mark(w.doc).Some? && l.start.value <= Mark(w.doc).value
    requires l.run.prior.Some?
    ensures var doc := SS.Doc(l.run.prior.value.cursor, l.run.runId, None);
            && RowsHeld(w.table, w.landed, w.target, Some(doc), w.used + {l.run.runId})
            && DocOk(w.table, Some(doc), w.used + {l.run.runId})
  {
    var doc := SS.Doc(l.run.prior.value.cursor, l.run.runId, None);
    forall i | 0 <= i < |w.table| && AtOrBelow(w.table[i], doc.cursor)
      ensures HeldIn(w.landed, w.target, Some(doc), w.used + {l.run.runId}, i)
    {
      assert Held(w, i);
      EarlierRowsHeld(w, l, doc, i);
    }
  }

  lemma SucceedKeeps(w: World)
    requires Inv(w) && Enabled(w, Succeed)
    ensures Inv(Next(w, Succeed))
  {
    hide RowsHeld, DocOk, SourceOk, CheckpointsOk, FilesOk, CommitsOk, ObjectsOk, PrefixesOk, NumberingOk, Grows, Emitted, Ranges,
      PrefixOf, ReadRowsHeld, SS.RecordFor, SS.SafeCheckpoint, SS.Drain, AllDelivered;
    var l := w.live.value;
    var act := SS.Flush(l.run, l.sup, if l.run.withSink then Some(true) else None, l.prefixes, true);
    StartIsBelow(w, l);
    if act.store.Some? {
      var c := SS.SafeCheckpoint(l.sup.at, l.sup.durable);
      if c.Some? {
        SafeIsOk(w.table, l, w.doc, l.sup.durable);
        SuccessHoldsAllRead(w, l, act.store.value, c.value.batchSeq);
        CheckpointRows(w.table, l, c.value);
        hide CheckpointOk;
        StoreKeepsRows(w, l, c.value, act.store.value, Upto(l, c.value.batchSeq));
      } else {
        PriorStays(w, l);
      }
    }
  }

  lemma StepKeeps(w: World, s: Step)
    requires Inv(w) && Enabled(w, s)
    ensures Inv(Next(w, s))
  {
    hide Inv, Enabled, Next;
    match s {
      case Append(more) => AppendKeeps(w, more);
      case Start(o) => StartKeeps(w, o);
      case NextBatch(n) => NextBatchKeeps(w, n);
      case EndStream => EndStreamKeeps(w);
      case Report => ReportKeeps(w);
      case Write => WriteKeeps(w);
      case Announce(last, ranged) => AnnounceKeeps(w, last, ranged);
      case Commit(n) => CommitKeeps(w, n);
      case Arrive => ArriveKeeps(w);
      case Upload(k, content) => UploadKeeps(w, k, content);
      case Ack(k) => AckKeeps(w, k);
      case ReceiveCheckpoint => ReceiveKeeps(w, s);
      case ReceiveCommit => ReceiveKeeps(w, s);
      case ReceivePrefix => ReceiveKeeps(w, s);
      case Fail(sinkDone) => FailKeeps(w, sinkDone);
      case Succeed => SucceedKeeps(w);
      case Crash => CrashKeeps(w);
    }
  }

  lemma CrashKeeps(w: World)
    requires Inv(w) && Enabled(w, Crash)
    ensures Inv(Next(w, Crash))
  {
    hide RowsHeld, DocOk, LiveOk;
  }
}
