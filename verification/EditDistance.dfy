/**
 The suggestion for a mistyped key: the edit distance in which a swap of two
 adjacent characters counts once, and the closest known field
 (crates/loadsmith-plugin-sdk/src/config.rs).
 */
module EditDistance {
  import opened Text
  import opened Wrappers

  // ----- what a distance is ---------------------------------------------------------

  /** One step of turning a text into another, read from the left; no character
      is touched twice. */
  datatype Edit = Keep | Substitute | Delete | Insert | Swap

  /** The edits turn the first `i` characters of `a` into the first `j` of `b`. */
  predicate Turns(edits: seq<Edit>, a: string, i: nat, b: string, j: nat)
    requires i <= |a| && j <= |b|
  {
    if edits == [] then i == 0 && j == 0
    else
      var rest := edits[..|edits| - 1];
      match edits[|edits| - 1]
      case Keep => i > 0 && j > 0 && a[i - 1] == b[j - 1] && Turns(rest, a, i - 1, b, j - 1)
      case Substitute => i > 0 && j > 0 && Turns(rest, a, i - 1, b, j - 1)
      case Delete => i > 0 && Turns(rest, a, i - 1, b, j)
      case Insert => j > 0 && Turns(rest, a, i, b, j - 1)
      case Swap => Swapped(a, i, b, j) && Turns(rest, a, i - 2, b, j - 2)
  }

  function Cost(edits: seq<Edit>): nat {
    if edits == [] then 0
    else Cost(edits[..|edits| - 1]) + if edits[|edits| - 1].Keep? then 0 else 1
  }

  // ----- the recurrence ----------------------------------------------------------------

  /** A cell from its neighbours: above, left, diagonal, and two up and two left
      when the last two characters are swapped. */
  function Cell(above: nat, left: nat, diagonal: nat, same: bool, swapped: Option<nat>): nat {
    var best := Min(Min(above + 1, left + 1), diagonal + if same then 0 else 1);
    if swapped.Some? then Min(best, swapped.value + 1) else best
  }

  predicate Swapped(a: string, i: nat, b: string, j: nat)
    requires i <= |a| && j <= |b|
  {
    i > 1 && j > 1 && a[i - 1] == b[j - 2] && a[i - 2] == b[j - 1]
  }

  function Distance(a: string, i: nat, b: string, j: nat): nat
    requires i <= |a| && j <= |b|
    decreases i + j
  {
    if i == 0 then j
    else if j == 0 then i
    else
      Cell(Distance(a, i - 1, b, j), Distance(a, i, b, j - 1), Distance(a, i - 1, b, j - 1), a[i - 1] == b[j - 1],
           if Swapped(a, i, b, j) then Some(Distance(a, i - 2, b, j - 2)) else None)
  }

  lemma DistanceStep(a: string, i: nat, b: string, j: nat)
    requires i <= |a| && j <= |b|
    ensures i == 0 ==> Distance(a, i, b, j) == j
    ensures j == 0 ==> Distance(a, i, b, j) == i
    ensures i > 0 && j > 0 ==>
              Distance(a, i, b, j)
              == Cell(Distance(a, i - 1, b, j), Distance(a, i, b, j - 1), Distance(a, i - 1, b, j - 1), a[i - 1] == b[j - 1],
                      if Swapped(a, i, b, j) then Some(Distance(a, i - 2, b, j - 2)) else None)
  {
  }

  function DistanceOf(a: string, b: string): nat { Distance(a, |a|, b, |b|) }

  /** No edits are cheaper than the distance. */
  lemma {:induction false} NoCheaperEdits(edits: seq<Edit>, a: string, i: nat, b: string, j: nat)
    requires i <= |a| && j <= |b| && Turns(edits, a, i, b, j)
    ensures Distance(a, i, b, j) <= Cost(edits)
    decreases |edits|
  {
    hide Distance;
    DistanceStep(a, i, b, j);
    if edits != [] {
      var rest := edits[..|edits| - 1];
      match edits[|edits| - 1] {
        case Keep => NoCheaperEdits(rest, a, i - 1, b, j - 1);
        case Substitute => NoCheaperEdits(rest, a, i - 1, b, j - 1);
        case Delete =>
          NoCheaperEdits(rest, a, i - 1, b, j);
          DistanceStep(a, i - 1, b, j);
        case Insert =>
          NoCheaperEdits(rest, a, i, b, j - 1);
          DistanceStep(a, i, b, j - 1);
        case Swap => NoCheaperEdits(rest, a, i - 2, b, j - 2);
      }
    }
  }

  /** And some edits cost exactly that. */
  lemma {:induction false} CheapestEdits(a: string, i: nat, b: string, j: nat) returns (edits: seq<Edit>)
    requires i <= |a| && j <= |b|
    ensures Turns(edits, a, i, b, j) && Cost(edits) == Distance(a, i, b, j)
    decreases i + j
  {
    hide Distance;
    DistanceStep(a, i, b, j);
    if i == 0 && j == 0 {
      edits := [];
    } else {
      var rest: seq<Edit>, last: Edit;
      var d := Distance(a, i, b, j);
      if i == 0 { DistanceStep(a, i, b, j - 1); }
      if j == 0 { DistanceStep(a, i - 1, b, j); }
      if j > 0 && (i == 0 || d == Distance(a, i, b, j - 1) + 1) {
        rest := CheapestEdits(a, i, b, j - 1);
        last := Insert;
      } else if j == 0 || d == Distance(a, i - 1, b, j) + 1 {
        rest := CheapestEdits(a, i - 1, b, j);
        last := Delete;
      } else if a[i - 1] == b[j - 1] && d == Distance(a, i - 1, b, j - 1) {
        rest := CheapestEdits(a, i - 1, b, j - 1);
        last := Keep;
      } else if d == Distance(a, i - 1, b, j - 1) + 1 {
        rest := CheapestEdits(a, i - 1, b, j - 1);
        last := Substitute;
      } else {
        rest := CheapestEdits(a, i - 2, b, j - 2);
        last := Swap;
      }
      edits := rest + [last];
      assert edits[..|edits| - 1] == rest;
    }
  }

  /** The distance is the least cost of edits that turn one text into the other. */
  lemma DistanceIsTheLeastCost(a: string, b: string, n: nat)
    ensures DistanceOf(a, b) <= n <==> exists edits :: Turns(edits, a, |a|, b, |b|) && Cost(edits) <= n
  {
    var edits := CheapestEdits(a, |a|, b, |b|);
    forall e | Turns(e, a, |a|, b, |b|) ensures DistanceOf(a, b) <= Cost(e) {
      NoCheaperEdits(e, a, |a|, b, |b|);
    }
  }

  lemma {:induction false} Symmetric(a: string, i: nat, b: string, j: nat)
    requires i <= |a| && j <= |b|
    ensures Distance(a, i, b, j) == Distance(b, j, a, i)
    decreases i + j
  {
    hide Distance;
    DistanceStep(a, i, b, j);
    DistanceStep(b, j, a, i);
    if i > 0 && j > 0 {
      Symmetric(a, i - 1, b, j);
      Symmetric(a, i, b, j - 1);
      Symmetric(a, i - 1, b, j - 1);
      if i > 1 && j > 1 { Symmetric(a, i - 2, b, j - 2); }
    }
  }

  lemma PrefixesEqual(a: string, i: nat, b: string, j: nat)
    requires 0 < i <= |a| && 0 < j <= |b|
    ensures a[..i] == b[..j] <==> a[..i - 1] == b[..j - 1] && a[i - 1] == b[j - 1]
  {
    assert a[..i] == a[..i - 1] + [a[i - 1]] && b[..j] == b[..j - 1] + [b[j - 1]];
    if a[..i] == b[..j] {
      assert i == j && a[..i][i - 1] == b[..j][j - 1];
      assert a[..i][..i - 1] == a[..i - 1] && b[..j][..j - 1] == b[..j - 1];
    }
  }

  /** Zero exactly on equal texts; never more than the longer one, never less
      than the difference in length. */
  lemma {:induction false} Bounds(a: string, i: nat, b: string, j: nat)
    requires i <= |a| && j <= |b|
    ensures Distance(a, i, b, j) == 0 <==> a[..i] == b[..j]
    ensures Distance(a, i, b, j) <= Max(i, j) && i <= j + Distance(a, i, b, j) && j <= i + Distance(a, i, b, j)
    decreases i + j
  {
    hide Distance;
    DistanceStep(a, i, b, j);
    if i > 0 && j > 0 {
      Bounds(a, i - 1, b, j);
      Bounds(a, i, b, j - 1);
      Bounds(a, i - 1, b, j - 1);
      if i > 1 && j > 1 { Bounds(a, i - 2, b, j - 2); }
      PrefixesEqual(a, i, b, j);
    }
  }

  lemma DistanceIsAMeasure(a: string, b: string)
    ensures DistanceOf(a, b) == DistanceOf(b, a)
    ensures DistanceOf(a, b) == 0 <==> a == b
    ensures DistanceOf(a, b) <= Max(|a|, |b|)
  {
    Symmetric(a, |a|, b, |b|);
    Bounds(a, |a|, b, |b|);
    assert a[..|a|] == a && b[..|b|] == b;
  }

  /** A swap of two adjacent characters counts as one edit, wherever it is. */
  lemma SwapCountsOnce(start: string, x: char, y: char, end: string)
    requires x != y
    ensures DistanceOf(start + [x, y] + end, start + [y, x] + end) == 1
  {
    var a, b, n := start + [x, y] + end, start + [y, x] + end, |start|;
    assert a[..n] == start && b[..n] == start;
    Bounds(a, n, b, n);
    DistanceStep(a, n + 2, b, n + 2);
    assert Distance(a, n + 2, b, n + 2) <= 1;
    SameEndsAddNothing(a, b, n + 2);
    assert a[n] != b[n];
    DistanceIsAMeasure(a, b);
  }

  lemma {:induction false} SameEndsAddNothing(a: string, b: string, n: nat)
    requires |a| == |b| && n <= |a| && a[n..] == b[n..]
    ensures DistanceOf(a, b) <= Distance(a, n, b, n)
    decreases |a| - n
  {
    hide Distance;
    if n < |a| {
      assert a[n] == a[n..][0] && b[n] == b[n..][0];
      assert a[n + 1..] == a[n..][1..] && b[n + 1..] == b[n..][1..];
      SameEndsAddNothing(a, b, n + 1);
      DistanceStep(a, n + 1, b, n + 1);
    }
  }

  // ----- the table ------------------------------------------------------------------------

  method EditDistance(a: string, b: string) returns (distance: nat)
    ensures distance == DistanceOf(a, b)
  {
    hide Distance;
    var d := new nat[|a| + 1, |b| + 1]((i, j) => 0);
    for i := 0 to |a| + 1
      invariant forall x :: 0 <= x < i ==> d[x, 0] == x
    {
      d[i, 0] := i;
    }
    for j := 0 to |b| + 1
      invariant forall x :: 0 <= x <= |a| ==> d[x, 0] == x
      invariant forall y :: 0 <= y < j ==> d[0, y] == y
    {
      d[0, j] := j;
    }
    forall x, y | 0 <= x < 1 && 0 <= y <= |b| ensures d[x, y] == Distance(a, x, b, y) {
      DistanceStep(a, x, b, y);
    }
    for i := 1 to |a| + 1
      invariant forall x :: 0 <= x <= |a| ==> d[x, 0] == x
      invariant forall x, y :: 0 <= x < i && 0 <= y <= |b| ==> d[x, y] == Distance(a, x, b, y)
    {
      DistanceStep(a, i, b, 0);
      for j := 1 to |b| + 1
        invariant forall x :: 0 <= x <= |a| ==> d[x, 0] == x
        invariant forall x, y :: 0 <= x < i && 0 <= y <= |b| ==> d[x, y] == Distance(a, x, b, y)
        invariant forall y :: 0 <= y < j ==> d[i, y] == Distance(a, i, b, y)
      {
        var cost := if a[i - 1] != b[j - 1] then 1 else 0;
        var best := Min(Min(d[i - 1, j] + 1, d[i, j - 1] + 1), d[i - 1, j - 1] + cost);
        if i > 1 && j > 1 && a[i - 1] == b[j - 2] && a[i - 2] == b[j - 1] {
          best := Min(best, d[i - 2, j - 2] + 1);
        }
        DistanceStep(a, i, b, j);
        d[i, j] := best;
      }
    }
    distance := d[|a|, |b|];
  }

  // ----- the closest field ---------------------------------------------------------------

  /** How far a plausible typo may be: as many edits as there are threes of
      characters, but at least one and at most three. */
  function Limit(key: string): (n: nat)
    ensures 1 <= n <= 3 && (n > 1 ==> 3 * n <= |key|) && (n < 3 ==> |key| < 3 * (n + 1))
  {
    var third := |key| / 3;
    if third < 1 then 1 else if third > 3 then 3 else third
  }

  predicate Plausible(key: string, field: string) { field != key && DistanceOf(key, field) <= Limit(key) }

  /** Closer, or as close and earlier in the alphabet. */
  predicate Better(key: string, f: string, g: string) {
    DistanceOf(key, f) < DistanceOf(key, g) || (DistanceOf(key, f) == DistanceOf(key, g) && (f == g || Less(f, g)))
  }

  lemma BetterIsTransitive(key: string, f: string, g: string, h: string)
    requires Better(key, f, g) && Better(key, g, h)
    ensures Better(key, f, h)
  {
    if f != g && g != h && Less(f, g) && Less(g, h) { LessIsTransitive(f, g, h); }
  }

  /** The closest field that is a plausible typo, if there is one: nothing
      among the fields is better. */
  method Closest(key: string, fields: seq<string>) returns (found: Option<string>)
    ensures found.None? <==> forall f :: f in fields ==> !Plausible(key, f)
    ensures found.Some? ==>
              found.value in fields && Plausible(key, found.value)
              && forall f :: f in fields && Plausible(key, f) ==> Better(key, found.value, f)
  {
    found := None;
    var best := 0;
    for i := 0 to |fields|
      invariant found.None? <==> forall k :: 0 <= k < i ==> !Plausible(key, fields[k])
      invariant found.Some? ==>
                  found.value in fields[..i] && Plausible(key, found.value) && best == DistanceOf(key, found.value)
                  && forall k :: 0 <= k < i && Plausible(key, fields[k]) ==> Better(key, found.value, fields[k])
    {
      var f := fields[i];
      if f != key {
        var d := EditDistance(key, f);
        if d <= Limit(key) {
          if found.None? || d < best || (d == best && Less(f, found.value)) {
            if found.Some? {
              forall k | 0 <= k < i && Plausible(key, fields[k]) ensures Better(key, f, fields[k]) {
                BetterIsTransitive(key, f, found.value, fields[k]);
              }
            }
            found, best := Some(f), d;
          } else {
            LessIsTotal(f, found.value);
          }
        }
      }
    }
  }

  /** That field is determined: no two are better than each other. */
  lemma BestIsUnique(key: string, f: string, g: string)
    requires Better(key, f, g) && Better(key, g, f)
    ensures f == g
  {
    if f != g { LessIsStrict(f, g); }
  }
}
