/**
 Credit flow control between the core and a source: the core's window and its
 grants (crates/loadsmith-core/src/pump.rs, `FlowWindow`), the source's gate
 (crates/loadsmith-plugin-sdk/src/flow.rs), and the coalescing channel and the
 `credit` messages in between. Ordinals and sizes are 64-bit.
 */
module FlowControl {
  import opened Wrappers

  const U64: nat := 0x1_0000_0000_0000_0000
  const U64_MAX: nat := U64 - 1
  const MIB: nat := 0x10_0000

  /** The window for a budget (in bytes) and the largest batch seen so far. */
  function Window(max: nat, budget: nat, largest: nat): nat {
    if budget == 0 || largest == 0 then max
    else if budget / largest < 1 then 1
    else Min(budget / largest, max)
  }

  /** The window is the most batches, between 1 and `max`, that fit the budget;
      one batch is let through even when it does not fit. */
  predicate IsBestWindow(w: nat, max: nat, budget: nat, largest: nat) {
    && 1 <= w <= max
    && (w > 1 ==> w * largest <= budget)
    && (w < max ==> (w + 1) * largest > budget)
  }

  lemma WindowIsBest(max: nat, budget: nat, largest: nat)
    requires max >= 1
    ensures budget > 0 ==> IsBestWindow(Window(max, budget, largest), max, budget, largest)
    ensures budget == 0 ==> Window(max, budget, largest) == max
  {
    if budget > 0 && largest > 0 {
      var w, q := Window(max, budget, largest), budget / largest;
      Quotient(budget, largest);
      hide Window;
      assert w < max ==> w >= q by { WindowIs(max, budget, largest); }
      assert 1 <= w <= max && (w > 1 ==> w <= q) by { WindowIs(max, budget, largest); }
      if w < max { Times(q + 1, w + 1, largest); }
      Times(w, q, largest);
    }
  }

  lemma WindowIs(max: nat, budget: nat, largest: nat)
    requires max >= 1 && budget > 0 && largest > 0
    ensures Window(max, budget, largest) == Max(1, Min(budget / largest, max))
  {
  }

  lemma Quotient(n: nat, d: nat)
    requires d > 0
    ensures n / d * d <= n < (n / d + 1) * d
  {
  }

  lemma Times(a: nat, b: nat, c: nat)
    ensures a <= b ==> a * c <= b * c
  {
  }

  /** There is only one such window. */
  lemma BestWindowIsUnique(v: nat, w: nat, max: nat, budget: nat, largest: nat)
    requires IsBestWindow(v, max, budget, largest) && IsBestWindow(w, max, budget, largest)
    ensures v == w
  {
    if v < w {
      Times(v + 1, w, largest);
      assert false;
    } else if w < v {
      Times(w + 1, v, largest);
      assert false;
    }
  }

  /** A larger batch never widens the window. */
  lemma WindowShrinks(max: nat, budget: nat, largest: nat, larger: nat)
    requires max >= 1 && largest <= larger
    ensures Window(max, budget, larger) <= Window(max, budget, largest)
  {
    if budget > 0 && largest > 0 {
      Quotient(budget, larger);
      Quotient(budget, largest);
      QuotientShrinks(budget, largest, larger, budget / largest, budget / larger);
    }
  }

  lemma QuotientShrinks(n: nat, d: nat, e: nat, q: nat, r: nat)
    requires d <= e && n < (q + 1) * d && r * e <= n
    ensures r <= q
  {
    if q + 1 <= r {
      Times(q + 1, r, d);
      Times(d, e, r);
    }
  }

  class FlowWindow {
    const max: nat
    const budget: nat
    var granted: nat
    var window: nat
    var largest: nat

    ghost predicate Valid()
      reads this
    {
      1 <= window <= max <= U64_MAX && granted <= U64_MAX
    }

    constructor (maxInflightBatches: nat, memoryBudgetMib: nat)
      requires maxInflightBatches <= U64_MAX
      ensures Valid() && max == Max(maxInflightBatches, 1) && budget == Min(memoryBudgetMib * MIB, U64_MAX)
      ensures window == granted == Min(max, 2) && largest == 0
    {
      max := Max(maxInflightBatches, 1);
      budget := Min(memoryBudgetMib * MIB, U64_MAX);
      window, granted, largest := Min(Max(maxInflightBatches, 1), 2), Min(Max(maxInflightBatches, 1), 2), 0;
    }

    /** The destination took batch `forwarded`. The sum wraps around. */
    method Forwarded(forwarded: nat, bytes: nat) returns (grew: bool)
      requires Valid()
      modifies this`granted, this`window, this`largest
      ensures Valid() && largest == Max(old(largest), bytes)
      ensures window == Window(max, budget, largest)
      ensures budget > 0 ==> IsBestWindow(window, max, budget, largest)
      ensures granted == Max(old(granted), (forwarded + window) % U64)
      ensures grew <==> granted > old(granted)
    {
      WindowIsBest(max, budget, Max(largest, bytes));
      largest := Max(largest, bytes);
      window := if budget == 0 || largest == 0 then max
                else if budget / largest < 1 then 1 else if budget / largest > max then max else budget / largest;
      var grant := (forwarded + window) % U64;
      grew := grant > granted;
      if grew {
        granted := grant;
      }
    }
  }

  /** The source's side: without credits the gate is open for good. */
  class FlowGrant {
    var granted: nat

    constructor (initial: Option<nat>)
      ensures granted == if initial.Some? then initial.value else U64_MAX
    {
      granted := if initial.Some? then initial.value else U64_MAX;
    }

    /** Grants only grow: an older, smaller one is ignored. */
    method Grant(batchSeq: nat)
      modifies this
      ensures granted == Max(old(granted), batchSeq)
    {
      if batchSeq > granted {
        granted := batchSeq;
      }
    }
  }

  // ----- both ends and what is between them ------------------------------------

  /** `noticed` is the grant the relay last took from the watch channel, which
      keeps only the newest; `credits` the messages on their way. */
  datatype State = State(max: nat, budget: nat, largest: nat, granted: nat, forwarded: nat,
                         noticed: nat, credits: seq<nat>, gate: nat, fetched: nat)

  datatype Step = Fetch | Forward(bytes: nat) | Relay | Deliver

  predicate Initial(s: State) {
    && 1 <= s.max <= U64_MAX && s.largest == 0 && s.forwarded == 0 && s.fetched == 0
    && s.granted == s.noticed == s.gate == Min(s.max, 2) && s.credits == []
  }

  predicate CanStep(s: State, step: Step) {
    match step
    case Fetch => s.gate >= s.fetched + 1
    case Forward(_) => s.forwarded < s.fetched
    case Relay => s.noticed != s.granted
    case Deliver => s.credits != []
  }

  function Next(s: State, step: Step): State
    requires CanStep(s, step)
  {
    match step
    case Fetch => s.(fetched := s.fetched + 1)
    case Forward(bytes) =>
      var largest := Max(s.largest, bytes);
      s.(forwarded := s.forwarded + 1, largest := largest,
         granted := Max(s.granted, (s.forwarded + 1 + Window(s.max, s.budget, largest)) % U64))
    case Relay => s.(noticed := s.granted, credits := s.credits + [s.granted])
    case Deliver => s.(gate := Max(s.gate, s.credits[0]), credits := s.credits[1..])
  }

  function Run(s: State, steps: seq<Step>): Option<State>
    decreases |steps|
  {
    if steps == [] then Some(s)
    else if CanStep(s, steps[0]) then Run(Next(s, steps[0]), steps[1..])
    else None
  }

  ghost predicate Inv(s: State) {
    && 1 <= s.max <= U64_MAX
    && s.forwarded <= s.fetched <= s.gate <= s.noticed <= s.granted <= U64_MAX
    && s.granted <= s.forwarded + s.max
    && (forall i :: 0 <= i < |s.credits| ==> s.gate <= s.credits[i] <= s.noticed)
    && (forall i, j :: 0 <= i < j < |s.credits| ==> s.credits[i] < s.credits[j])
    && s.noticed == if s.credits == [] then s.gate else s.credits[|s.credits| - 1]
  }

  /** With a ceiling below the largest 64-bit number the grant is always ahead:
      a sum can wrap only once everything was granted. */
  ghost predicate Ahead(s: State) {
    && s.max < U64_MAX
    && (s.granted == U64_MAX || s.granted >= s.forwarded + 1)
    && (s.forwarded > 0 && s.granted < U64_MAX ==> s.granted >= s.forwarded + Window(s.max, s.budget, s.largest))
  }

  lemma StepKeeps(s: State, step: Step)
    requires Inv(s) && CanStep(s, step)
    ensures Inv(Next(s, step))
    ensures Ahead(s) ==> Ahead(Next(s, step))
  {
    hide Window;
    if step.Forward? {
      var largest := Max(s.largest, step.bytes);
      var w := Window(s.max, s.budget, largest);
      WindowBounds(s.max, s.budget, largest);
      WindowBounds(s.max, s.budget, s.largest);
      WindowShrinks(s.max, s.budget, s.largest, largest);
      var sum := s.forwarded + 1 + w;
      Wraps(sum);
    } else if step.Deliver? {
      assert s.credits[1..] != [] ==> s.credits[1..][|s.credits| - 2] == s.credits[|s.credits| - 1];
    }
  }

  lemma Wraps(n: nat)
    ensures n % U64 <= n && n % U64 <= U64_MAX && (n < U64 ==> n % U64 == n)
  {
  }

  lemma WindowBounds(max: nat, budget: nat, largest: nat)
    requires max >= 1
    ensures 1 <= Window(max, budget, largest) <= max
  {
  }

  lemma {:induction false} RunKeeps(s: State, steps: seq<Step>)
    requires Inv(s) && Run(s, steps).Some?
    ensures var t := Run(s, steps).value;
            Inv(t) && (Ahead(s) ==> Ahead(t)) && t.max == s.max && t.budget == s.budget
            && s.granted <= t.granted && s.gate <= t.gate
    decreases |steps|
  {
    if steps != [] {
      StepKeeps(s, steps[0]);
      RunKeeps(Next(s, steps[0]), steps[1..]);
    }
  }

  /** However late grants are relayed and however many the channel merges:
      batches fetched but not forwarded never exceed the ceiling. */
  lemma InFlightIsBounded(s: State, steps: seq<Step>)
    requires Initial(s) && Run(s, steps).Some?
    ensures var t := Run(s, steps).value;
            t.forwarded <= t.fetched && t.fetched - t.forwarded <= s.max && t.fetched <= t.gate <= t.granted
  {
    RunKeeps(s, steps);
  }

  /** Grants never shrink, on either side. */
  lemma GrantsNeverShrink(s: State, before: seq<Step>, after: seq<Step>)
    requires Initial(s) && Run(s, before).Some? && Run(Run(s, before).value, after).Some?
    ensures var t, u := Run(s, before).value, Run(Run(s, before).value, after).value;
            t.granted <= u.granted && t.gate <= u.gate
  {
    RunKeeps(s, before);
    RunKeeps(Run(s, before).value, after);
  }

  /** Everything fetched was forwarded, and nothing is on its way. */
  predicate Settled(s: State) { s.fetched == s.forwarded && s.noticed == s.granted && s.credits == [] }

  /** No deadlock: a settled source may fetch the next batch. */
  lemma SettledMayFetch(s: State, steps: seq<Step>)
    requires Initial(s) && s.max < U64_MAX && Run(s, steps).Some?
    requires Settled(Run(s, steps).value) && Run(s, steps).value.fetched < U64_MAX
    ensures CanStep(Run(s, steps).value, Fetch)
  {
    RunKeeps(s, steps);
  }

  /** The ceiling 2^64 - 1 is the one for which that fails: the sum wraps at the
      first batch, and the source never gets past its first two. */
  lemma LargestCeilingDeadlocks(s: State)
    requires Initial(s) && s.max == U64_MAX
    ensures var r := Run(s, [Fetch, Forward(0), Fetch, Forward(0)]);
            r.Some? && Settled(r.value) && !CanStep(r.value, Fetch) && forall step :: !CanStep(r.value, step)
  {
    var a := Next(s, Fetch);
    var b := Next(a, Forward(0));
    assert Window(s.max, s.budget, 0) == U64_MAX;
    assert (1 + U64_MAX) % U64 == 0;
    assert b.granted == 2;
    var c := Next(b, Fetch);
    var d := Next(c, Forward(0));
    assert (2 + U64_MAX) % U64 == 1;
    assert d.granted == 2;
    assert [Fetch, Forward(0), Fetch, Forward(0)][1..] == [Forward(0), Fetch, Forward(0)];
    assert [Forward(0), Fetch, Forward(0)][1..] == [Fetch, Forward(0)];
    assert [Fetch, Forward(0)][1..] == [Forward(0)];
    assert [Forward(0)][1..] == [];
    assert Run(d, []) == Some(d);
    assert Run(c, [Forward(0)]) == Some(d);
    assert Run(b, [Fetch, Forward(0)]) == Some(d);
    assert Run(a, [Forward(0), Fetch, Forward(0)]) == Some(d);
  }

  /** Exactly: no run gets stuck if and only if the ceiling is below 2^64 - 1. */
  lemma DeadlockFreeIff(s: State)
    requires Initial(s)
    ensures s.max < U64_MAX <==>
              forall steps :: Run(s, steps).Some? && Settled(Run(s, steps).value) && Run(s, steps).value.fetched < U64_MAX
                              ==> CanStep(Run(s, steps).value, Fetch)
  {
    if s.max < U64_MAX {
      forall steps | Run(s, steps).Some? && Settled(Run(s, steps).value) && Run(s, steps).value.fetched < U64_MAX
        ensures CanStep(Run(s, steps).value, Fetch)
      {
        SettledMayFetch(s, steps);
      }
    } else {
      LargestCeilingDeadlocks(s);
    }
  }
}
