/**
 The files between a raw source and the parser: the feed that hands each
 announced file over once (crates/loadsmith-core/src/parser_feed.rs) and the
 parser's own inbox and file loop (crates/loadsmith-plugin-sdk/src/parser.rs).
 */
module ParserFeed {
  import opened Wrappers

  type Path = nat
  type Batch = int
  /** What the parser plugin reads out of each file; a path that is missing does not open. */
  type Disk = map<Path, seq<Batch>>

  /** The first occurrence of every path, in order. */
  function Distinct(paths: seq<Path>): (r: seq<Path>)
    ensures forall p :: p in r <==> p in paths
  {
    if paths == [] then []
    else
      var before := Distinct(paths[..|paths| - 1]);
      if paths[|paths| - 1] in paths[..|paths| - 1] then before else before + [paths[|paths| - 1]]
  }

  /** The batches of `files`, file after file. */
  function Batches(disk: Disk, files: seq<Path>): seq<Batch>
    requires forall p :: p in files ==> p in disk
  {
    if files == [] then [] else Batches(disk, files[..|files| - 1]) + disk[files[|files| - 1]]
  }

  predicate NoRepeats(paths: seq<Path>) { forall i, j :: 0 <= i < j < |paths| ==> paths[i] != paths[j] }

  lemma DistinctSnoc(paths: seq<Path>, p: Path)
    ensures Distinct(paths + [p]) == if p in paths then Distinct(paths) else Distinct(paths) + [p]
  {
    assert (paths + [p])[..|paths + [p]| - 1] == paths;
  }

  lemma BatchesSnoc(disk: Disk, files: seq<Path>, p: Path)
    requires (forall q :: q in files ==> q in disk) && p in disk
    ensures Batches(disk, files + [p]) == Batches(disk, files) + disk[p]
  {
    assert (files + [p])[..|files + [p]| - 1] == files;
  }

  /** Every path once, and removing repeats again changes nothing. */
  lemma {:induction false} DistinctIsDistinct(paths: seq<Path>)
    ensures NoRepeats(Distinct(paths)) && Distinct(Distinct(paths)) == Distinct(paths)
  {
    if paths != [] {
      var before, last := paths[..|paths| - 1], paths[|paths| - 1];
      DistinctIsDistinct(before);
      if last !in before { DistinctSnoc(Distinct(before), last); }
    }
  }

  /** More announcements only add to what was handed over. */
  lemma {:induction false} DistinctGrows(paths: seq<Path>, more: seq<Path>)
    ensures Distinct(paths) <= Distinct(paths + more)
  {
    if more == [] {
      assert paths + more == paths;
    } else {
      DistinctGrows(paths, more[..|more| - 1]);
      assert (paths + more)[..|paths + more| - 1] == paths + more[..|more| - 1];
    }
  }

  /** The place of a path is that of its first announcement: files keep the
      order in which they were first announced. */
  lemma {:induction false} FirstAnnouncedFirst(paths: seq<Path>, i: nat, j: nat)
    requires i < j < |Distinct(paths)|
    ensures exists x, y :: 0 <= x < y < |paths| && paths[x] == Distinct(paths)[i] && paths[y] == Distinct(paths)[j]
                           && paths[x] !in paths[..x] && paths[y] !in paths[..y]
  {
    var before := paths[..|paths| - 1];
    var d := Distinct(paths);
    if j < |Distinct(before)| {
      FirstAnnouncedFirst(before, i, j);
      var x, y :| 0 <= x < y < |before| && before[x] == d[i] && before[y] == d[j] && before[x] !in before[..x] && before[y] !in before[..y];
      assert paths[..x] == before[..x] && paths[..y] == before[..y] && paths[x] == d[i] && paths[y] == d[j];
    } else {
      var y := |paths| - 1;
      assert d[i] in before;
      var x := FirstOccurrence(before, d[i]);
      assert paths[..x] == before[..x] && paths[..y] == before && paths[x] == d[i] && paths[y] == d[j];
    }
  }

  lemma {:induction false} FirstOccurrence(paths: seq<Path>, p: Path) returns (x: nat)
    requires p in paths
    ensures x < |paths| && paths[x] == p && p !in paths[..x]
  {
    var before := paths[..|paths| - 1];
    if p in before {
      x := FirstOccurrence(before, p);
      assert before[..x] == paths[..x];
    } else {
      x := |paths| - 1;
    }
  }

  // ----- the core's side ---------------------------------------------------------

  /** The feed. What it handed to the parser so far is kept beside the set the
      source keeps, so that the order can be stated. */
  class Feed {
    var filesOpen: bool
    var sent: set<Path>
    ghost var received: seq<Path>
    ghost var handed: seq<Path>

    ghost predicate Valid()
      reads this
    {
      && handed == Distinct(received)
      && (forall p :: p in sent <==> p in received)
    }

    constructor ()
      ensures Valid() && filesOpen && received == [] && sent == {}
    {
      filesOpen, sent, received, handed := true, {}, [], [];
    }

    /** One announcement: handed to the parser unless it was before. */
    method HandleFile(path: Path) returns (hand: bool)
      requires Valid()
      modifies this`sent, this`received, this`handed
      ensures Valid() && received == old(received) + [path]
      ensures sent == old(sent) + {path}
      ensures hand <==> path !in old(sent)
      ensures handed == old(handed) + if hand then [path] else []
    {
      DistinctSnoc(received, path);
      hand := path !in sent;
      sent := sent + {path};
      received := received + [path];
      if hand {
        handed := handed + [path];
      }
    }

    method HandleEnd()
      requires Valid()
      modifies this`filesOpen
      ensures Valid() && !filesOpen
    {
      filesOpen := false;
    }

    /** The parser's input ends once no file can come and the raw source succeeded. */
    method MaybeEndInput(rawSucceeded: bool, inputClosed: bool) returns (nowClosed: bool)
      requires Valid()
      ensures nowClosed <==> inputClosed || (!filesOpen && rawSucceeded)
    {
      nowClosed := inputClosed;
      if !inputClosed && !filesOpen && rawSucceeded {
        nowClosed := true;
      }
    }
  }

  // ----- the parser's side --------------------------------------------------------

  /** The paths received so far and what is left to do. */
  class Inbox {
    var queue: seq<Path>
    var seen: set<Path>
    var eof: bool
    ghost var taken: seq<Path>
    ghost var popped: seq<Path>

    ghost predicate Valid()
      reads this
    {
      && popped + queue == Distinct(taken)
      && (forall p :: p in seen <==> p in taken)
    }

    constructor ()
      ensures Valid() && queue == [] && !eof && taken == [] && popped == [] && seen == {}
    {
      queue, seen, eof, taken, popped := [], {}, false, [], [];
    }

    /** One line of standard input, or its end. */
    method Take(line: Option<Path>)
      requires Valid()
      modifies this`queue, this`seen, this`eof, this`taken
      ensures Valid()
      ensures taken == old(taken) + if line.Some? then [line.value] else []
      ensures eof == (old(eof) || line.None?)
    {
      hide Distinct;
      if line.None? {
        eof := true;
      } else {
        var path := line.value;
        DistinctSnoc(taken, path);
        assert forall p :: p in taken + [path] <==> p in taken || p == path;
        assert popped + (queue + [path]) == (popped + queue) + [path];
        if path !in seen {
          seen := seen + {path};
          queue := queue + [path];
        }
        taken := taken + [path];
      }
    }

    method Pop() returns (path: Path)
      requires Valid() && queue != []
      modifies this`queue, this`popped
      ensures Valid() && popped == old(popped) + [path]
    {
      path := queue[0];
      queue := queue[1..];
      popped := popped + [path];
      assert popped + queue == old(popped + queue);
    }
  }

  /** Reads up to `arrivals` lines while the plugin is busy. */
  method TakeArrivals(inbox: Inbox, lines: seq<Path>, next: nat, arrivals: nat) returns (next': nat)
    requires inbox.Valid() && next <= |lines| && inbox.taken == lines[..next] && (inbox.eof ==> next == |lines|)
    modifies inbox`queue, inbox`seen, inbox`eof, inbox`taken
    ensures inbox.Valid() && next <= next' <= |lines| && inbox.taken == lines[..next']
    ensures inbox.eof ==> next' == |lines|
    ensures inbox.popped == old(inbox.popped)
    ensures arrivals > 0 && !old(inbox.eof) ==> next' > next || inbox.eof
  {
    next' := next;
    var left := arrivals;
    while left > 0 && !inbox.eof
      invariant inbox.Valid() && next <= next' <= |lines| && inbox.taken == lines[..next']
      invariant inbox.eof ==> next' == |lines|
      invariant left < arrivals && !old(inbox.eof) ==> next' > next || inbox.eof
    {
      if next' < |lines| {
        inbox.Take(Some(lines[next']));
        assert lines[..next' + 1] == lines[..next'] + [lines[next']];
        next' := next' + 1;
      } else {
        inbox.Take(None);
      }
      left := left - 1;
    }
  }

  // ----- one file ------------------------------------------------------------------

  datatype Column = Column(name: string, dataType: nat, nullable: bool)

  /** The file has the stream's columns, names and types in the same order; a
      column may be non-nullable where the stream's is nullable. */
  predicate Fits(stream: seq<Column>, file: seq<Column>) {
    && |stream| == |file|
    && forall i :: 0 <= i < |stream| ==> ColumnFits(stream[i], file[i])
  }

  predicate ColumnFits(s: Column, f: Column) { s.name == f.name && s.dataType == f.dataType && (f.nullable ==> s.nullable) }

  /** The first column that does not fit is looked for. */
  method Check(stream: seq<Column>, file: seq<Column>) returns (ok: bool)
    ensures ok <==> Fits(stream, file)
  {
    if |stream| != |file| {
      return false;
    }
    var i := 0;
    while i < |stream| && stream[i].name == file[i].name && stream[i].dataType == file[i].dataType
          && (!file[i].nullable || stream[i].nullable)
      invariant i <= |stream| && forall j :: 0 <= j < i ==> ColumnFits(stream[j], file[j])
    {
      i := i + 1;
    }
    ok := i == |stream|;
  }

  /** The k-th write to the stream (counted from 1) succeeds. */
  predicate WritesAll(writes: nat -> bool, from: nat, n: nat) { forall k :: from < k <= from + n ==> writes(k) }

  /** One file: its batches are written to the stream, one after the other. */
  method ParseFile(inbox: Inbox, lines: seq<Path>, next: nat, batches: seq<Batch>, arrivals: nat -> nat,
                   writes: nat -> bool, total: nat)
    returns (next': nat, written: seq<Batch>)
    requires inbox.Valid() && next <= |lines| && inbox.taken == lines[..next] && (inbox.eof ==> next == |lines|)
    modifies inbox`queue, inbox`seen, inbox`eof, inbox`taken
    ensures inbox.Valid() && next <= next' <= |lines| && inbox.taken == lines[..next']
    ensures inbox.eof ==> next' == |lines|
    ensures inbox.popped == old(inbox.popped)
    ensures written <= batches && (written == batches <==> WritesAll(writes, total, |batches|))
  {
    next', written := next, [];
    while |written| < |batches|
      invariant inbox.Valid() && next <= next' <= |lines| && inbox.taken == lines[..next']
      invariant inbox.eof ==> next' == |lines|
      invariant written <= batches && WritesAll(writes, total, |written|)
    {
      next' := TakeArrivals(inbox, lines, next', arrivals(|written|));
      if !writes(total + |written| + 1) {
        return;
      }
      written := batches[..|written| + 1];
    }
  }

  datatype ParserEnd =
    /** The end marker was written and success reported. */
    | Succeeded
    | OpenFailed(path: Path)
    | SchemaMismatch(path: Path)
    | ParseFailed(path: Path)
    | WriteFailed
    | NoInput

  /** What the plugin makes of the files: their columns, and which of them fail
      after the batches that `disk` holds; and the columns it declared. */
  datatype Reading = Reading(disk: Disk, columns: Path -> seq<Column>, broken: Path -> bool, declared: Option<seq<Column>>)

  /** The stream's one schema: the declared one, or the first file's. */
  function StreamColumns(r: Reading, lines: seq<Path>): Option<seq<Column>> {
    if r.declared.Some? then r.declared else if lines == [] then None else Some(r.columns(lines[0]))
  }

  predicate FileLoads(r: Reading, lines: seq<Path>, p: Path) {
    p in r.disk && !r.broken(p) && StreamColumns(r, lines).Some? && Fits(StreamColumns(r, lines).value, r.columns(p))
  }

  /** Every file opens, fits and can be read, and every write succeeds. */
  predicate Loads(r: Reading, lines: seq<Path>, writes: nat -> bool, finishes: bool) {
    && StreamColumns(r, lines).Some?
    && (forall p :: p in lines ==> FileLoads(r, lines, p))
    && WritesAll(writes, 0, |Batches(r.disk, Distinct(lines))|)
    && finishes
  }

  /** A path that was just popped was not parsed before, and is one of the input's. */
  lemma PoppedIsNew(lines: seq<Path>, next: nat, parsed: seq<Path>, path: Path, queue: seq<Path>)
    requires next <= |lines| && parsed + [path] + queue == Distinct(lines[..next])
    ensures path !in parsed && path in lines && |parsed| < |Distinct(lines)|
  {
    hide Distinct;
    var d := Distinct(lines[..next]);
    DistinctIsDistinct(lines[..next]);
    assert d[|parsed|] == path && d[..|parsed|] == parsed;
    assert path in d;
    assert lines == lines[..next] + lines[next..];
    DistinctGrows(lines[..next], lines[next..]);
  }

  lemma {:induction false} FirstStaysFirst(paths: seq<Path>)
    requires paths != []
    ensures Distinct(paths) != [] && Distinct(paths)[0] == paths[0]
  {
    var before := paths[..|paths| - 1];
    if before != [] {
      FirstStaysFirst(before);
    }
  }

  lemma {:induction false} FewerBatches(disk: Disk, a: seq<Path>, b: seq<Path>)
    requires forall p :: p in a + b ==> p in disk
    ensures (forall p :: p in a ==> p in disk) && |Batches(disk, a)| <= |Batches(disk, a + b)|
  {
    assert forall p :: p in a ==> p in a + b;
    if b == [] {
      assert a + b == a;
    } else {
      var c := b[..|b| - 1];
      assert (a + b)[..|a + b| - 1] == a + c;
      assert forall p :: p in a + c ==> p in a + b;
      FewerBatches(disk, a, c);
    }
  }

  /** The batches of the files begun are among those of a run that loads. */
  lemma BegunAreAmongAll(r: Reading, lines: seq<Path>, next: nat, parsed: seq<Path>, path: Path, queue: seq<Path>)
    requires next <= |lines| && parsed + [path] + queue == Distinct(lines[..next])
    requires forall p :: p in lines ==> p in r.disk
    ensures (forall p :: p in parsed ==> p in r.disk) && path in r.disk
    ensures |Batches(r.disk, parsed)| + |r.disk[path]| <= |Batches(r.disk, Distinct(lines))|
  {
    var d, all := Distinct(lines[..next]), Distinct(lines);
    assert lines == lines[..next] + lines[next..];
    DistinctGrows(lines[..next], lines[next..]);
    hide Distinct, Batches;
    var begun := parsed + [path];
    assert all == begun + all[|begun|..];
    FewerBatches(r.disk, begun, all[|begun|..]);
    assert path in begun;
    assert forall p :: p in parsed ==> p in begun;
    BatchesSnoc(r.disk, parsed, path);
  }

  /** The path popped first is the first line. */
  lemma FirstPopped(lines: seq<Path>, next: nat, path: Path, queue: seq<Path>)
    requires next <= |lines| && [path] + queue == Distinct(lines[..next])
    ensures lines != [] && path == lines[0]
  {
    assert ([path] + queue)[0] == path;
    if lines[..next] != [] {
      FirstStaysFirst(lines[..next]);
    }
  }

  /** Why the parser stopped. */
  ghost predicate Stops(r: Reading, lines: seq<Path>, writes: nat -> bool, finishes: bool, end: ParserEnd) {
    match end
    case Succeeded => false
    case OpenFailed(p) => p in lines && p !in r.disk
    case SchemaMismatch(p) =>
      p in lines && p in r.disk && StreamColumns(r, lines).Some? && !Fits(StreamColumns(r, lines).value, r.columns(p))
    case ParseFailed(p) => p in lines && p in r.disk && r.broken(p)
    case WriteFailed => !finishes || exists k :: k > 0 && !writes(k)
    case NoInput => StreamColumns(r, lines).None?
  }

  /** Opens one file, checks its columns (the first file's become the stream's)
      and parses it. */
  method LoadFile(r: Reading, lines: seq<Path>, inbox: Inbox, next: nat, path: Path, was: Option<seq<Column>>,
                  arrivals: nat -> nat, writes: nat -> bool, total: nat)
    returns (next': nat, stream: Option<seq<Column>>, written: seq<Batch>, problem: Option<ParserEnd>)
    requires inbox.Valid() && next <= |lines| && inbox.taken == lines[..next] && (inbox.eof ==> next == |lines|)
    requires path in lines && (if was.Some? then was == StreamColumns(r, lines) else r.declared.None? && path == lines[0])
    modifies inbox`queue, inbox`seen, inbox`eof, inbox`taken
    ensures inbox.Valid() && next <= next' <= |lines| && inbox.taken == lines[..next']
    ensures inbox.eof ==> next' == |lines|
    ensures inbox.popped == old(inbox.popped)
    ensures problem.None? <==> FileLoads(r, lines, path) && WritesAll(writes, total, |r.disk[path]|)
    ensures problem.None? ==> stream == StreamColumns(r, lines) && written == r.disk[path]
    ensures problem.Some? ==>
              match problem.value
              case OpenFailed(p) => p == path && path !in r.disk
              case SchemaMismatch(p) => p == path && path in r.disk && !Fits(StreamColumns(r, lines).value, r.columns(path))
              case ParseFailed(p) => p == path && path in r.disk && r.broken(path)
              case WriteFailed => path in r.disk && !WritesAll(writes, total, |r.disk[path]|)
              case _ => false
  {
    hide Distinct, Fits, WritesAll;
    stream, written := was, [];
    next' := TakeArrivals(inbox, lines, next, arrivals(0));
    if path !in r.disk {
      return next', stream, [], Some(OpenFailed(path));
    }
    if stream.Some? {
      var fits := Check(stream.value, r.columns(path));
      if !fits {
        return next', stream, [], Some(SchemaMismatch(path));
      }
    } else {
      stream := Some(r.columns(path));
      FitsItself(r.columns(path));
    }
    next', written := ParseFile(inbox, lines, next', r.disk[path], i => arrivals(i + 1), writes, total);
    if |written| < |r.disk[path]| {
      return next', stream, written, Some(WriteFailed);
    }
    assert written == r.disk[path];
    problem := if r.broken(path) then Some(ParseFailed(path)) else None;
  }

  lemma NoWrites(writes: nat -> bool)
    ensures WritesAll(writes, 0, 0)
  {
  }

  lemma MoreWrites(writes: nat -> bool, a: nat, b: nat)
    requires WritesAll(writes, 0, a) && WritesAll(writes, a, b)
    ensures WritesAll(writes, 0, a + b)
  {
  }

  /** The file loop of a parser: one file at a time, in arrival order, until
      its input ended and the queue is empty. `lines` is all its input ever
      holds; `arrivals` how many lines are read during each wait on the plugin.
      It succeeds exactly when every file opens, fits the stream and can be
      read, and every write succeeds; then every distinct path was parsed once,
      in order, and nothing else was written. Otherwise it stops for a reason
      that is there, with the files parsed so far in the stream. */
  method DriveParser(r: Reading, lines: seq<Path>, arrivals: (nat, nat) -> nat, writes: nat -> bool, finishes: bool)
    returns (end: ParserEnd, out: seq<Batch>, parsed: seq<Path>)
    ensures end.Succeeded? <==> Loads(r, lines, writes, finishes)
    ensures !end.Succeeded? ==> Stops(r, lines, writes, finishes, end)
    ensures parsed <= Distinct(lines) && (forall p :: p in parsed ==> p in r.disk) && Batches(r.disk, parsed) <= out
    ensures end.Succeeded? ==> parsed == Distinct(lines) && out == Batches(r.disk, parsed)
  {
    hide Distinct, Batches, Fits, WritesAll;
    NoWrites(writes);
    var inbox := new Inbox();
    var next := 0;
    out, parsed := [], [];
    assert out == Batches(r.disk, parsed) by { BatchesOfNone(r.disk); }
    assert parsed <= Distinct(lines);
    var stream := r.declared;
    while inbox.queue != [] || !inbox.eof
      invariant inbox.Valid() && fresh(inbox) && next <= |lines| && inbox.taken == lines[..next]
      invariant inbox.eof ==> next == |lines|
      invariant inbox.popped == parsed && parsed <= Distinct(lines)
      invariant forall p :: p in parsed ==> p in lines && FileLoads(r, lines, p)
      invariant out == Batches(r.disk, parsed) && WritesAll(writes, 0, |out|)
      invariant stream == if r.declared.Some? || parsed != [] then StreamColumns(r, lines) else None
      decreases |Distinct(lines)| - |parsed|, |lines| - next, !inbox.eof
    {
      if inbox.queue == [] {
        next := TakeArrivals(inbox, lines, next, 1);
      } else {
        var path := inbox.Pop();
        PoppedIsNew(lines, next, parsed, path, inbox.queue);
        NextIsPrefix(lines, next, parsed, path, inbox.queue);
        if parsed == [] { FirstPopped(lines, next, path, inbox.queue); }
        ghost var queue, taken := inbox.queue, next;
        var problem: Option<ParserEnd>, written: seq<Batch>;
        next, stream, written, problem := LoadFile(r, lines, inbox, next, path, stream, i => arrivals(|parsed|, i), writes, |out|);
        if problem.Some? {
          if problem.value.WriteFailed? { WriteFailureShows(r, lines, taken, parsed, path, queue, writes); }
          return problem.value, out + written, parsed;
        }
        BatchesSnoc(r.disk, parsed, path);
        MoreWrites(writes, |out|, |written|);
        parsed, out := parsed + [path], out + written;
      }
    }
    assert lines[..next] == lines;
    assert parsed + inbox.queue == parsed == Distinct(lines);
    assert lines != [] ==> lines[0] in Distinct(lines);
    if stream.None? {
      return NoInput, out, parsed;
    }
    StreamIsKnown(r, lines, parsed);
    if !finishes {
      return WriteFailed, out, parsed;
    }
    assert forall p :: p in lines ==> p in Distinct(lines);
    end := Succeeded;
  }

  lemma StreamIsKnown(r: Reading, lines: seq<Path>, parsed: seq<Path>)
    requires parsed == Distinct(lines) && (r.declared.Some? || parsed != [])
    ensures StreamColumns(r, lines).Some?
  {
    if parsed != [] {
      assert parsed[0] in Distinct(lines);
    }
  }

  lemma NextIsPrefix(lines: seq<Path>, next: nat, parsed: seq<Path>, path: Path, queue: seq<Path>)
    requires next <= |lines| && parsed + [path] + queue == Distinct(lines[..next])
    ensures parsed + [path] <= Distinct(lines)
  {
    assert lines == lines[..next] + lines[next..];
    DistinctGrows(lines[..next], lines[next..]);
  }

  lemma FitsItself(columns: seq<Column>)
    ensures Fits(columns, columns)
  {
  }

  /** A write that failed is one of those a run that loads needs. */
  lemma WriteFailureShows(r: Reading, lines: seq<Path>, next: nat, parsed: seq<Path>, path: Path, queue: seq<Path>, writes: nat -> bool)
    requires next <= |lines| && parsed + [path] + queue == Distinct(lines[..next])
    requires (forall p :: p in parsed ==> p in r.disk) && path in r.disk
    requires !WritesAll(writes, |Batches(r.disk, parsed)|, |r.disk[path]|)
    ensures exists k :: k > 0 && !writes(k)
    ensures (forall p :: p in lines ==> p in r.disk) ==> !WritesAll(writes, 0, |Batches(r.disk, Distinct(lines))|)
  {
    var from := |Batches(r.disk, parsed)|;
    var k :| from < k <= from + |r.disk[path]| && !writes(k);
    if forall p :: p in lines ==> p in r.disk {
      BegunAreAmongAll(r, lines, next, parsed, path, queue);
    }
  }

  lemma BatchesOfNone(disk: Disk)
    ensures Batches(disk, []) == []
  {
  }
}
