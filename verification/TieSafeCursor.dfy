/** Tie-safe incremental watermarks (crates/loadsmith-plugin-sdk/src/watermark.rs). */
module TieSafeCursor {
  // A resumed run reads strictly after the persisted watermark, so while a stream
  // runs only a value already followed by a different one may be reported. The
  // class works batch by batch; what it reports is specified on the stream alone,
  // so how the stream was cut into batches cannot matter.

  import opened Wrappers

  /** The last value of a stream. */
  function Last<T>(s: seq<T>): Option<T> {
    if s == [] then None else Some(s[|s| - 1])
  }

  /** The latest value of `s` that differs from `v`. */
  function LastOther<T(==)>(s: seq<T>, v: T): (r: Option<T>)
    ensures r.None? <==> forall i :: 0 <= i < |s| ==> s[i] == v
    ensures r.Some? ==> r.value in s && r.value != v
  {
    if s == [] then None
    else if s[|s| - 1] != v then Some(s[|s| - 1])
    else LastOther(s[..|s| - 1], v)
  }

  /** The latest value that a different one follows: complete, if values come in order. */
  function Complete<T(==)>(s: seq<T>): Option<T> {
    if s == [] then None else LastOther(s, s[|s| - 1])
  }

  /** What a source may report after reading the stream `s`. */
  function Watermark<T(==)>(s: seq<T>, ended: bool): Option<T> {
    if ended then Last(s) else Complete(s)
  }

  function Reversed<T>(s: seq<T>): (r: seq<T>)
    ensures |r| == |s|
    ensures forall i :: 0 <= i < |s| ==> r[i] == s[|s| - 1 - i]
  {
    if s == [] then [] else Reversed(s[1..]) + [s[0]]
  }

  /** Searching a concatenation looks at the second part first. */
  lemma {:induction false} LastOtherConcat<T>(a: seq<T>, b: seq<T>, v: T)
    ensures LastOther(a + b, v) == if LastOther(b, v).Some? then LastOther(b, v) else LastOther(a, v)
  {
    if b == [] {
      assert a + b == a;
    } else {
      assert (a + b)[..|a + b| - 1] == a + b[..|b| - 1];
      LastOtherConcat(a, b[..|b| - 1], v);
    }
  }

  /** The value found by `LastOther`, located: nothing after it differs from `v`. */
  lemma {:induction false} LastOtherAt<T>(s: seq<T>, v: T, k: nat)
    requires k < |s| && s[k] != v && forall i :: k < i < |s| ==> s[i] == v
    ensures LastOther(s, v) == Some(s[k])
  {
    if k < |s| - 1 {
      LastOtherAt(s[..|s| - 1], v, k);
    }
  }

  class Cursor<T(==)> {
    var complete: Option<T>
    var last: Option<T>
    var ended: bool
    /** Every value fed so far, in stream order. */
    ghost var stream: seq<T>

    ghost predicate Valid()
      reads this
    {
      complete == Complete(stream) && last == Last(stream)
    }

    constructor ()
      ensures Valid() && stream == [] && !ended
    {
      complete, last, ended, stream := None, None, false, [];
    }

    /** One batch's values, newest first: only as many are read as it takes to
        find one that differs from the last. */
    method Batch(newestFirst: seq<T>)
      requires Valid()
      modifies this
      ensures Valid() && stream == old(stream) + Reversed(newestFirst) && ended == old(ended)
    {
      ghost var batch := Reversed(newestFirst);
      if newestFirst == [] {
        assert stream + batch == stream;
        return;
      }
      var newest := newestFirst[0];
      var i := 1;
      while i < |newestFirst| && newestFirst[i] == newest
        invariant 1 <= i <= |newestFirst|
        invariant forall k :: 0 <= k < i ==> newestFirst[k] == newest
      {
        i := i + 1;
      }
      LastOtherConcat(stream, batch, newest);
      if i < |newestFirst| {
        LastOtherAt(batch, newest, |batch| - 1 - i);
        complete := Some(newestFirst[i]);
      } else {
        assert LastOther(batch, newest).None?;
        if last.Some? && last.value != newest {
          complete := last;
        }
      }
      last := Some(newest);
      stream := stream + batch;
    }

    method End()
      requires Valid()
      modifies this
      ensures Valid() && ended && stream == old(stream)
    {
      ended := true;
    }

    method Reported() returns (w: Option<T>)
      requires Valid()
      ensures w == Watermark(stream, ended)
    {
      w := if ended then (if last.Some? then last else complete) else complete;
    }
  }

  predicate Ordered(s: seq<int>) {
    forall i, j :: 0 <= i < j < |s| ==> s[i] <= s[j]
  }

  /** On an ordered stream the watermark is the greatest value strictly below
      the last one read: whatever is read later can neither equal it nor lie
      below it, and everything at or below it was read. */
  lemma CompleteIsGreatestBelow(s: seq<int>)
    requires Ordered(s) && s != []
    ensures Complete(s).None? <==> forall i :: 0 <= i < |s| ==> s[i] == s[|s| - 1]
    ensures Complete(s).Some? ==>
              var w := Complete(s).value;
              && w in s && w < s[|s| - 1]
              && forall i :: 0 <= i < |s| && s[i] < s[|s| - 1] ==> s[i] <= w
  {
    var v := s[|s| - 1];
    if Complete(s).Some? {
      var k := GreatestBelow(s, v, |s|);
      LastOtherAt(s, v, k);
    }
  }

  /** The last position of `s[..n]` whose value differs from `v`. */
  lemma {:induction false} GreatestBelow(s: seq<int>, v: int, n: nat) returns (k: nat)
    requires n <= |s| && LastOther(s[..n], v).Some?
    ensures k < n && s[k] != v && forall i :: k < i < n ==> s[i] == v
  {
    if s[n - 1] != v {
      k := n - 1;
    } else {
      assert s[..n][..n - 1] == s[..n - 1];
      k := GreatestBelow(s, v, n - 1);
    }
  }

  /** A watermark reported before the end stays safe however the stream goes on:
      the values at or below it are exactly among those already read. */
  lemma WatermarkIsTieSafe(read: seq<int>, later: seq<int>, i: nat)
    requires Ordered(read + later) && i < |read + later|
    requires Complete(read).Some? && (read + later)[i] <= Complete(read).value
    ensures i < |read|
  {
    var s := read + later;
    assert forall k :: 0 <= k < |read| ==> s[k] == read[k];
    assert |read| - 1 < i ==> s[|read| - 1] <= s[i];
    CompleteIsGreatestBelow(read);
  }
}
