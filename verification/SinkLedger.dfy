/**
 The delivery ledger and the delivered prefix
 (crates/loadsmith-core/src/sink_supervisor.rs, `Ledger` and `DeliveredPrefix`).

 A destination announces files in order, each with the range of batches it
 holds when it knows it; a sink acknowledges them in any order. The delivered
 prefix is how far delivery got without a gap.
 */
module SinkLedger {
  import opened Wrappers

  /** A staged file's path, as an identifier. */
  type Path = nat
  datatype Range = Range(first: nat, last: nat)
  datatype StagedObject = StagedObject(path: Path, batches: Option<Range>)
  /** The first `objects` files were delivered and hold batches `1..=through`. */
  datatype Delivered = Delivered(through: nat, objects: nat)

  /** The highest batch the first `k` files reach. */
  function Reach(emitted: seq<Path>, ranges: map<Path, Range>, k: nat): nat
    requires k <= |emitted|
  {
    if k == 0 then 0
    else
      var before := Reach(emitted, ranges, k - 1);
      if emitted[k - 1] in ranges then Max(before, ranges[emitted[k - 1]].last) else before
  }

  /** File `k` was acknowledged, says what it holds, and leaves no gap. */
  predicate Extends(emitted: seq<Path>, ranges: map<Path, Range>, acked: set<Path>, k: nat)
    requires k < |emitted|
  {
    && emitted[k] in acked
    && emitted[k] in ranges
    && ranges[emitted[k]].first <= Reach(emitted, ranges, k) + 1
  }

  /** `n` is the length of the longest leading run of such files. */
  predicate IsLongestRun(emitted: seq<Path>, ranges: map<Path, Range>, acked: set<Path>, n: nat) {
    && n <= |emitted|
    && (forall k :: 0 <= k < n ==> Extends(emitted, ranges, acked, k))
    && (n < |emitted| ==> !Extends(emitted, ranges, acked, n))
  }

  function RunFrom(emitted: seq<Path>, ranges: map<Path, Range>, acked: set<Path>, k: nat): (n: nat)
    requires k <= |emitted|
    ensures k <= n <= |emitted|
    ensures forall j :: k <= j < n ==> Extends(emitted, ranges, acked, j)
    ensures n < |emitted| ==> !Extends(emitted, ranges, acked, n)
    decreases |emitted| - k
  {
    if k < |emitted| && Extends(emitted, ranges, acked, k) then RunFrom(emitted, ranges, acked, k + 1) else k
  }

  /** The delivered prefix of a ledger. */
  function PrefixOf(emitted: seq<Path>, ranges: map<Path, Range>, acked: set<Path>): (d: Delivered)
    ensures IsLongestRun(emitted, ranges, acked, d.objects)
    ensures d.through == Reach(emitted, ranges, d.objects)
  {
    var n := RunFrom(emitted, ranges, acked, 0);
    Delivered(Reach(emitted, ranges, n), n)
  }

  function Pending(emitted: seq<Path>, acked: set<Path>): (p: seq<Path>)
    ensures forall x :: x in p <==> x in emitted && x !in acked
    ensures |p| <= |emitted|
  {
    if emitted == [] then []
    else
      var rest := Pending(emitted[..|emitted| - 1], acked);
      if emitted[|emitted| - 1] in acked then rest else rest + [emitted[|emitted| - 1]]
  }

  // ----- the ledger -------------------------------------------------------

  class Ledger {
    var emitted: seq<Path>
    var delivered: set<Path>
    var ranges: map<Path, Range>
    var through: nat
    /** What was sent to the state supervisor, oldest first. */
    var published: seq<Delivered>

    /** Published values strictly increase, and the last one is `through`. */
    ghost predicate Valid()
      reads this
    {
      && Increasing(published)
      && through == if published == [] then 0 else published[|published| - 1].through
    }

    constructor ()
      ensures Valid() && emitted == [] && delivered == {} && ranges == map[] && published == []
    {
      emitted, delivered, ranges, through, published := [], {}, map[], 0, [];
    }

    /** A file arrives: recorded, and emitted unless it is already known.
        `unknown` tells whether it has to be sent to the sink. */
    method Announce(staged: StagedObject) returns (unknown: bool)
      requires Valid()
      modifies this`emitted, this`ranges
      ensures Valid()
      ensures unknown <==> staged.path !in old(emitted) && staged.path !in delivered
      ensures emitted == old(emitted) + if unknown then [staged.path] else []
      ensures ranges == if staged.batches.Some? then old(ranges)[staged.path := staged.batches.value] else old(ranges)
    {
      if staged.batches.Some? {
        ranges := ranges[staged.path := staged.batches.value];
      }
      unknown := staged.path !in delivered && staged.path !in emitted;
      if unknown {
        emitted := emitted + [staged.path];
      }
    }

    /** The sink acknowledged `path`: the prefix is recomputed, and published
        exactly when it advanced. */
    method Acknowledge(path: Path)
      requires Valid()
      modifies this`delivered, this`through, this`published
      ensures Valid()
      ensures delivered == old(delivered) + {path}
      ensures var d := PrefixOf(emitted, ranges, delivered);
              published == old(published) + if d.through > old(through) then [d] else []
      ensures through == Max(old(through), PrefixOf(emitted, ranges, delivered).through)
    {
      delivered := delivered + {path};
      var reach, objects := 0, 0;
      while objects < |emitted| && Extends(emitted, ranges, delivered, objects)
        invariant objects <= |emitted| && reach == Reach(emitted, ranges, objects)
        invariant RunFrom(emitted, ranges, delivered, 0) == RunFrom(emitted, ranges, delivered, objects)
      {
        reach := Max(reach, ranges[emitted[objects]].last);
        objects := objects + 1;
      }
      if reach > through {
        through := reach;
        published := published + [Delivered(reach, objects)];
      }
    }

    /** The objects not yet acknowledged, in announcement order. */
    method NotYetDelivered() returns (pending: seq<Path>)
      ensures pending == Pending(emitted, delivered)
    {
      pending := [];
      for i := 0 to |emitted|
        invariant pending == Pending(emitted[..i], delivered)
      {
        assert emitted[..i + 1][..i] == emitted[..i];
        if emitted[i] !in delivered {
          pending := pending + [emitted[i]];
        }
      }
      assert emitted[..|emitted|] == emitted;
    }
  }

  predicate Increasing(p: seq<Delivered>) {
    && (forall i, j :: 0 <= i < j < |p| ==> p[i].through < p[j].through)
    && (p != [] ==> 0 < p[0].through)
  }

  // ----- what the prefix means --------------------------------------------

  /** There is one longest run: the prefix is a function of what was
      announced and what was acknowledged. */
  lemma LongestRunIsUnique(emitted: seq<Path>, ranges: map<Path, Range>, acked: set<Path>, n: nat)
    requires IsLongestRun(emitted, ranges, acked, n)
    ensures PrefixOf(emitted, ranges, acked) == Delivered(Reach(emitted, ranges, n), n)
  {
  }

  /** Every batch of a gap-free run is in one of its files. */
  lemma {:induction false} NoBatchIsSkipped(emitted: seq<Path>, ranges: map<Path, Range>, acked: set<Path>, n: nat, b: nat)
    requires n <= |emitted| && forall k :: 0 <= k < n ==> Extends(emitted, ranges, acked, k)
    requires 1 <= b <= Reach(emitted, ranges, n)
    ensures exists k :: 0 <= k < n && emitted[k] in acked && emitted[k] in ranges
                        && ranges[emitted[k]].first <= b <= ranges[emitted[k]].last
  {
    if b <= Reach(emitted, ranges, n - 1) {
      NoBatchIsSkipped(emitted, ranges, acked, n - 1, b);
    } else {
      assert Extends(emitted, ranges, acked, n - 1);
    }
  }

  /** Files announced later do not change what the first `k` reach. */
  lemma {:induction false} ReachIsLocal(emitted: seq<Path>, ranges: map<Path, Range>,
                                        emitted': seq<Path>, ranges': map<Path, Range>, k: nat)
    requires k <= |emitted| <= |emitted'| && emitted'[..|emitted|] == emitted
    requires forall p :: p in emitted ==> (p in ranges <==> p in ranges') && (p in ranges ==> ranges[p] == ranges'[p])
    ensures Reach(emitted, ranges, k) == Reach(emitted', ranges', k)
  {
    if k > 0 {
      ReachIsLocal(emitted, ranges, emitted', ranges', k - 1);
      assert emitted'[k - 1] == emitted'[..|emitted|][k - 1];
    }
  }

  lemma {:induction false} ReachGrows(emitted: seq<Path>, ranges: map<Path, Range>, k: nat, n: nat)
    requires k <= n <= |emitted|
    ensures Reach(emitted, ranges, k) <= Reach(emitted, ranges, n)
  {
    if k < n {
      ReachGrows(emitted, ranges, k, n - 1);
    }
  }

  /** More files announced (each path once) and more acknowledged: the prefix
      never moves back. */
  lemma PrefixNeverMovesBack(emitted: seq<Path>, ranges: map<Path, Range>, acked: set<Path>,
                             emitted': seq<Path>, ranges': map<Path, Range>, acked': set<Path>)
    requires |emitted| <= |emitted'| && emitted'[..|emitted|] == emitted && acked <= acked'
    requires forall p :: p in emitted ==> (p in ranges <==> p in ranges') && (p in ranges ==> ranges[p] == ranges'[p])
    ensures PrefixOf(emitted, ranges, acked).objects <= PrefixOf(emitted', ranges', acked').objects
    ensures PrefixOf(emitted, ranges, acked).through <= PrefixOf(emitted', ranges', acked').through
  {
    var n, m := PrefixOf(emitted, ranges, acked).objects, PrefixOf(emitted', ranges', acked').objects;
    if m < n {
      ReachIsLocal(emitted, ranges, emitted', ranges', m);
      assert emitted'[m] == emitted'[..|emitted|][m];
      assert Extends(emitted, ranges, acked, m);
      assert Extends(emitted', ranges', acked', m);
      assert false;
    }
    ReachIsLocal(emitted, ranges, emitted', ranges', n);
    ReachGrows(emitted', ranges', n, m);
  }

  /** What a ledger's `through` becomes as `order` is acknowledged file by file. */
  function ThroughAfter(emitted: seq<Path>, ranges: map<Path, Range>, order: seq<Path>): nat {
    if order == [] then 0
    else Max(ThroughAfter(emitted, ranges, order[..|order| - 1]), PrefixOf(emitted, ranges, set p | p in order).through)
  }

  /** The order of the acknowledgements does not matter: after any of them the
      published prefix is that of the set acknowledged. */
  lemma {:induction false} AcknowledgementOrderIsIrrelevant(emitted: seq<Path>, ranges: map<Path, Range>, order: seq<Path>)
    ensures ThroughAfter(emitted, ranges, order) == PrefixOf(emitted, ranges, set p | p in order).through
  {
    if order == [] {
      assert PrefixOf(emitted, ranges, set p | p in order).objects == 0;
    } else {
      var before := order[..|order| - 1];
      AcknowledgementOrderIsIrrelevant(emitted, ranges, before);
      PrefixNeverMovesBack(emitted, ranges, (set p | p in before), emitted, ranges, (set p | p in order));
    }
  }

  // ----- announcements and acknowledgements interleaved -----------------------

  datatype Posting = Announcing(staged: StagedObject) | Acknowledging(path: Path)

  /** A ledger's fields, as `Announce` and `Acknowledge` leave them. */
  datatype Book = Book(emitted: seq<Path>, ranges: map<Path, Range>, acked: set<Path>, through: nat)

  function Entered(b: Book, e: Posting): Book {
    match e
    case Announcing(o) =>
      b.(emitted := b.emitted + if o.path !in b.emitted && o.path !in b.acked then [o.path] else [],
         ranges := if o.batches.Some? then b.ranges[o.path := o.batches.value] else b.ranges)
    case Acknowledging(p) =>
      var acked := b.acked + {p};
      b.(acked := acked, through := Max(b.through, PrefixOf(b.emitted, b.ranges, acked).through))
  }

  function Booked(postings: seq<Posting>): Book {
    if postings == [] then Book([], map[], {}, 0) else Entered(Booked(postings[..|postings| - 1]), postings[|postings| - 1])
  }

  /** What was announced, in order, and what was acknowledged, apart from each other. */
  function Announcements(postings: seq<Posting>): seq<StagedObject> {
    if postings == [] then []
    else
      var before := Announcements(postings[..|postings| - 1]);
      if postings[|postings| - 1].Announcing? then before + [postings[|postings| - 1].staged] else before
  }

  function Acknowledgements(postings: seq<Posting>): set<Path> {
    if postings == [] then {}
    else
      var before := Acknowledgements(postings[..|postings| - 1]);
      if postings[|postings| - 1].Acknowledging? then before + {postings[|postings| - 1].path} else before
  }

  function PathsIn(files: seq<StagedObject>): (r: seq<Path>)
    ensures |r| == |files| && forall i :: 0 <= i < |r| ==> r[i] == files[i].path
  {
    if files == [] then [] else PathsIn(files[..|files| - 1]) + [files[|files| - 1].path]
  }

  function RangesIn(files: seq<StagedObject>): (r: map<Path, Range>)
    ensures forall p :: p in r ==> p in PathsIn(files)
  {
    if files == [] then map[]
    else
      var before, last := RangesIn(files[..|files| - 1]), files[|files| - 1];
      assert PathsIn(files) == PathsIn(files[..|files| - 1]) + [last.path];
      if last.batches.Some? then before[last.path := last.batches.value] else before
  }

  /** Each path is announced once, and acknowledged only after that. */
  predicate InTurn(postings: seq<Posting>) {
    postings == []
    || (var before, last := postings[..|postings| - 1], postings[|postings| - 1];
        InTurn(before)
        && if last.Announcing? then last.staged.path !in PathsIn(Announcements(before))
           else last.path in PathsIn(Announcements(before)))
  }

  /** However announcements and acknowledgements interleave: the ledger holds
      what was announced, and what it published last is the prefix of all the
      announcements under the set acknowledged. */
  lemma {:induction false} InterleavingIsIrrelevant(postings: seq<Posting>)
    requires InTurn(postings)
    ensures var files := Announcements(postings);
            Booked(postings) == Book(PathsIn(files), RangesIn(files), Acknowledgements(postings),
                                   PrefixOf(PathsIn(files), RangesIn(files), Acknowledgements(postings)).through)
    ensures forall p :: p in Acknowledgements(postings) ==> p in PathsIn(Announcements(postings))
  {
    if postings != [] {
      var before, last := postings[..|postings| - 1], postings[|postings| - 1];
      InterleavingIsIrrelevant(before);
      var files, acked := Announcements(before), Acknowledgements(before);
      hide PrefixOf;
      if last.Announcing? {
        var more := files + [last.staged];
        assert more[..|files|] == files;
        hide RangesIn;
        RangesInMore(files, last.staged);
        AnUnackedFileChangesNothing(PathsIn(files), RangesIn(files), acked, last.staged.path, RangesIn(more));
      } else {
        PrefixNeverMovesBack(PathsIn(files), RangesIn(files), acked, PathsIn(files), RangesIn(files), acked + {last.path});
      }
    }
  }

  lemma RangesInMore(files: seq<StagedObject>, o: StagedObject)
    ensures PathsIn(files + [o]) == PathsIn(files) + [o.path]
    ensures RangesIn(files + [o]) == if o.batches.Some? then RangesIn(files)[o.path := o.batches.value] else RangesIn(files)
  {
    assert (files + [o])[..|files|] == files;
  }

  /** Announcing a file that is not acknowledged leaves the prefix alone. */
  lemma AnUnackedFileChangesNothing(emitted: seq<Path>, ranges: map<Path, Range>, acked: set<Path>,
                                    x: Path, ranges': map<Path, Range>)
    requires x !in acked
    requires forall p :: p in emitted ==> (p in ranges <==> p in ranges') && (p in ranges ==> ranges[p] == ranges'[p])
    ensures PrefixOf(emitted + [x], ranges', acked) == PrefixOf(emitted, ranges, acked)
  {
    var more := emitted + [x];
    var n := PrefixOf(emitted, ranges, acked).objects;
    forall k | 0 <= k <= |emitted| ensures Reach(more, ranges', k) == Reach(emitted, ranges, k) {
      ReachIsLocal(emitted, ranges, more, ranges', k);
    }
    assert forall k :: 0 <= k < |emitted| ==> Extends(more, ranges', acked, k) == Extends(emitted, ranges, acked, k);
    LongestRunIsUnique(more, ranges', acked, n);
  }

  /** Pending objects keep their announcement order. */
  lemma {:induction false} PendingKeepsOrder(emitted: seq<Path>, acked: set<Path>, i: nat, j: nat)
    requires i < j < |Pending(emitted, acked)|
    requires forall x, y :: 0 <= x < y < |emitted| ==> emitted[x] != emitted[y]
    ensures exists x, y :: 0 <= x < y < |emitted|
              && emitted[x] == Pending(emitted, acked)[i] && emitted[y] == Pending(emitted, acked)[j]
  {
    var before := emitted[..|emitted| - 1];
    var p := Pending(emitted, acked);
    if j < |Pending(before, acked)| {
      PendingKeepsOrder(before, acked, i, j);
      var x, y :| 0 <= x < y < |before| && before[x] == Pending(before, acked)[i] && before[y] == Pending(before, acked)[j];
      assert emitted[x] == p[i] && emitted[y] == p[j];
    } else {
      assert p[i] in before;
      var x :| 0 <= x < |before| && before[x] == p[i];
      assert emitted[x] == p[i] && emitted[|emitted| - 1] == p[j];
    }
  }
}
