/** The lease lock that keeps two runs of a pipeline apart. */
module Lease {
  // `acquire` and `Lease` of crates/loadsmith-core/src/state.rs, over the
  // compare-and-swap store of crates/loadsmith-core/src/state_s3.rs.
  //
  // Any number of runs take their steps in any order; a read and the write that
  // follows it are separate steps, with anything in between. Time is a step too.

  import opened Wrappers

  /** A token unique to one acquisition. */
  type Token = nat
  type Version = nat

  /** Milliseconds. */
  const LEASE_TTL: nat := 15000

  /** A lock as stored: the lease is none when it cannot be parsed. `written`
      is the true time at which the stamp of its lease was taken. */
  datatype LockFile = LockFile(holder: Token, stamp: int)
  datatype Lock = Lock(version: Version, lease: Option<LockFile>, written: nat)

  /** A store gives every write a new version. */
  datatype Store = Store(lock: Option<Lock>, next: Version)

  function Written(s: Store, lease: LockFile, at: nat): Store {
    Store(Some(Lock(s.next, Some(lease), at)), s.next + 1)
  }

  predicate HeldBy(s: Store, t: Token) { s.lock.Some? && s.lock.value.lease.Some? && s.lock.value.lease.value.holder == t }

  predicate Unchanged(s: Store, seen: Lock) { s.lock.Some? && s.lock.value.version == seen.version }

  // ----- the store, in place ----------------------------------------------------

  /** The lock object behind conditional PUTs (If-None-Match and If-Match of
      RFC 9110, sections 13.1.2 and 13.1.1). */
  class S3Lock {
    var current: Option<Lock>
    var next: Version

    constructor ()
      ensures Contents() == Store(None, 0)
    {
      current, next := None, 0;
    }

    function Contents(): Store
      reads this
    {
      Store(current, next)
    }

    method Create(lease: LockFile, at: nat) returns (created: bool)
      modifies this
      ensures created <==> old(Contents()).lock.None?
      ensures Contents() == if created then Written(old(Contents()), lease, at) else old(Contents())
    {
      created := current.None?;
      if created {
        current, next := Some(Lock(next, Some(lease), at)), next + 1;
      }
    }

    method Replace(seen: Lock, lease: LockFile, at: nat) returns (replaced: bool)
      modifies this
      ensures replaced <==> Unchanged(old(Contents()), seen)
      ensures Contents() == if replaced then Written(old(Contents()), lease, at) else old(Contents())
    {
      replaced := current.Some? && current.value.version == seen.version;
      if replaced {
        current, next := Some(Lock(next, Some(lease), at)), next + 1;
      }
    }

    /** Unconditional. */
    method Remove()
      modifies this
      ensures Contents() == old(Contents()).(lock := None)
    {
      current := None;
    }

    /** Other runs use the store. */
    method Others(after: Store)
      modifies this
      ensures Contents() == after
    {
      current, next := after.lock, after.next;
    }
  }

  /** What other writers may have made of a store. */
  predicate Later(s: Store, t: Store) {
    s.next <= t.next && (t.lock.Some? ==> t.lock == s.lock || s.next <= t.lock.value.version < t.next)
  }

  predicate WellFormed(s: Store) { s.lock.Some? ==> s.lock.value.version < s.next }

  /** The lease as its holder sees it. */
  class Holder {
    const store: S3Lock
    const token: Token
    var released: bool
    var lost: bool

    constructor (store: S3Lock, token: Token)
      ensures this.store == store && this.token == token && !released && !lost
    {
      this.store, this.token, released, lost := store, token, false, false;
    }

    /** One renewal. `meanwhile` is the store after others wrote between the
        read and the write. A lease that is not ours any more is never written. */
    method Renew(meanwhile: Store, lease: LockFile, at: nat)
      requires WellFormed(store.Contents()) && Later(store.Contents(), meanwhile) && lease.holder == token
      modifies this`lost, store
      ensures old(released || lost) ==> store.Contents() == old(store.Contents()) && lost == old(lost)
      ensures !old(released || lost) ==>
                (lost <==> !(HeldBy(old(store.Contents()), token) && meanwhile.lock == old(store.Contents()).lock))
      ensures !old(released || lost) && !lost ==>
                HeldBy(meanwhile, token) && store.Contents() == Written(meanwhile, lease, at)
      ensures !old(released || lost) && lost ==> store.Contents() == meanwhile
    {
      if released || lost {
        return;
      }
      var seen := store.current;
      store.Others(meanwhile);
      if seen.Some? && seen.value.lease.Some? && seen.value.lease.value.holder == token {
        var replaced := store.Replace(seen.value, lease, at);
        if replaced {
          return;
        }
      }
      lost := true;
    }

    /** The release: a read, then an unconditional remove. It removes its own
        lock if nobody stole it in between. */
    method Release(meanwhile: Store)
      modifies this`released, store
      ensures released
      ensures store.Contents() == if HeldBy(old(store.Contents()), token) then meanwhile.(lock := None) else meanwhile
    {
      released := true;
      var seen := store.current;
      store.Others(meanwhile);
      if seen.Some? && seen.value.lease.Some? && seen.value.lease.value.holder == token {
        store.Remove();
      }
    }
  }

  // ----- the protocol ------------------------------------------------------------

  /** Where a run is. `mine` is the last lock it wrote. */
  datatype Phase =
    | Idle
    | Creating(stamped: nat)
    | Looking
    | Watching(seen: Lock, since: nat)
    | Stealing(seen: Lock, stamped: nat)
    | Holding(mine: Lock)
    | Renewing(mine: Lock, seen: Lock, stamped: nat)
    | Removing(mine: Lock)
    | Lost
    /** Refused: the lock it had found, and the one it then read in its place (none
        if it failed to replace the first). */
    | Busy(seen: Lock, found: Option<Lock>)
    | Released
    | Crashed

  datatype How = Created | Stole | Renewed

  datatype Change =
    | Wrote(run: Token, how: How, over: Option<Lock>, lock: Lock)
    | Removed(run: Token, over: Option<Lock>)

  datatype World = World(store: Store, runs: seq<Phase>, clocks: seq<int>, now: nat, observe: nat, changes: seq<Change>)

  datatype Step =
    | Begin(run: Token)
    | CreateLands(run: Token)
    | Look(run: Token)
    | Poll(run: Token, readable: bool)
    | StealLands(run: Token)
    | RenewReads(run: Token)
    | RenewLands(run: Token)
    | RenewFails(run: Token)
    | ReleaseReads(run: Token)
    | RemoveLands(run: Token)
    | RemoveFails(run: Token)
    | Crash(run: Token)
    | Tick

  /** A guard that exists: it was not released (its remove may be on its way). */
  predicate Live(p: Phase) { p.Holding? || p.Renewing? || p.Removing? }

  predicate CanStep(w: World, s: Step) {
    s.Tick? || (
      && s.run < |w.runs|
      && var p := w.runs[s.run];
      match s
      case Begin(_) => p.Idle?
      case CreateLands(_) => p.Creating?
      case Look(_) => p.Looking?
      case Poll(_, _) => p.Watching?
      case StealLands(_) => p.Stealing?
      case RenewReads(_) => p.Holding?
      case RenewLands(_) => p.Renewing?
      case RenewFails(_) => p.Renewing?
      case ReleaseReads(_) => p.Holding? || p.Lost?
      case RemoveLands(_) => p.Removing?
      case RemoveFails(_) => p.Removing?
      case Crash(_) => true
    )
  }

  /** How old a lease looks on a clock; never negative, and an unreadable one looks new. */
  function Age(seen: Lock, clock: int): int {
    if seen.lease.None? then 0 else if clock < seen.lease.value.stamp then 0 else clock - seen.lease.value.stamp
  }

  function Put(w: World, run: Token, stamped: nat, how: How): World
    requires run < |w.runs| && run < |w.clocks|
  {
    var store := Written(w.store, LockFile(run, stamped + w.clocks[run]), stamped);
    w.(store := store, runs := w.runs[run := Holding(store.lock.value)],
       changes := w.changes + [Wrote(run, how, w.store.lock, store.lock.value)])
  }

  function Goto(w: World, run: Token, p: Phase): World
    requires run < |w.runs|
  {
    w.(runs := w.runs[run := p])
  }

  function Next(w: World, s: Step): World
    requires CanStep(w, s) && |w.clocks| == |w.runs|
  {
    if s.Tick? then w.(now := w.now + 1) else
      var run, p, lock := s.run, w.runs[s.run], w.store.lock;
      match s
      case Begin(_) => Goto(w, run, Creating(w.now))
      case CreateLands(_) => if lock.None? then Put(w, run, p.stamped, Created) else Goto(w, run, Looking)
      case Look(_) =>
        if lock.None? then Goto(w, run, Creating(w.now))
        else if Age(lock.value, w.now + w.clocks[run]) <= LEASE_TTL then Goto(w, run, Watching(lock.value, w.now))
        else Goto(w, run, Stealing(lock.value, w.now))
      case Poll(_, readable) =>
        if readable && lock.None? then Goto(w, run, Creating(w.now))
        else if readable && !Unchanged(w.store, p.seen) then Goto(w, run, Busy(p.seen, lock))
        else if w.now - p.since >= w.observe then Goto(w, run, Stealing(p.seen, w.now))
        else w
      case StealLands(_) =>
        if Unchanged(w.store, p.seen) then Put(w, run, p.stamped, Stole) else Goto(w, run, Busy(p.seen, None))
      case RenewReads(_) =>
        if HeldBy(w.store, run) then Goto(w, run, Renewing(p.mine, lock.value, w.now)) else Goto(w, run, Lost)
      case RenewLands(_) =>
        if Unchanged(w.store, p.seen) then Put(w, run, p.stamped, Renewed) else Goto(w, run, Lost)
      case RenewFails(_) => Goto(w, run, Holding(p.mine))
      case ReleaseReads(_) =>
        if HeldBy(w.store, run) then Goto(w, run, Removing(if p.Holding? then p.mine else lock.value)) else Goto(w, run, Released)
      case RemoveLands(_) =>
        Goto(w, run, Released).(store := w.store.(lock := None), changes := w.changes + [Removed(run, lock)])
      case RemoveFails(_) => Goto(w, run, Released)
      case Crash(_) => Goto(w, run, Crashed)
  }

  function Run(w: World, steps: seq<Step>): Option<World>
    requires |w.clocks| == |w.runs|
    decreases |steps|
  {
    if steps == [] then Some(w)
    else if CanStep(w, steps[0]) then Run(Next(w, steps[0]), steps[1..])
    else None
  }

  /** No run has begun; a lock may be left over from a token nobody here uses. */
  predicate Initial(w: World) {
    && |w.clocks| == |w.runs| && (forall i :: 0 <= i < |w.runs| ==> w.runs[i].Idle?)
    && WellFormed(w.store) && w.changes == []
    && (w.store.lock.Some? && w.store.lock.value.lease.Some? ==> w.store.lock.value.lease.value.holder >= |w.runs|)
  }

  // ----- taking the lock, call by call ---------------------------------------------

  /** What others made of the store before a call, the time of that call, and
      whether a read can be answered. */
  datatype Meanwhile = Meanwhile(store: Store, now: nat, readable: bool)

  predicate Trying(p: Phase) { p.Creating? || p.Looking? || p.Watching? || p.Stealing? }

  /** The call a run makes next. */
  function Call(p: Phase, run: Token, readable: bool): Step
    requires Trying(p)
  {
    match p
    case Creating(_) => CreateLands(run)
    case Looking => Look(run)
    case Watching(_, _) => Poll(run, readable)
    case Stealing(_, _) => StealLands(run)
  }

  function Called(w: World, run: Token, m: Meanwhile): World
    requires |w.clocks| == |w.runs| && run < |w.runs| && Trying(w.runs[run])
  {
    Next(w.(store := m.store, now := m.now), Call(w.runs[run], run, m.readable))
  }

  /** The protocol's steps of one run, with others' doings in between. */
  function Acquiring(w: World, run: Token, ms: seq<Meanwhile>): World
    requires |w.clocks| == |w.runs| && run < |w.runs|
    decreases |ms|
  {
    if ms == [] || !Trying(w.runs[run]) then w
    else
      NextKeepsShape(w.(store := ms[0].store, now := ms[0].now), Call(w.runs[run], run, ms[0].readable));
      Acquiring(Called(w, run, ms[0]), run, ms[1..])
  }

  lemma {:induction false} OneMoreCall(w: World, run: Token, ms: seq<Meanwhile>, m: Meanwhile)
    requires |w.clocks| == |w.runs| && run < |w.runs|
    ensures var t := Acquiring(w, run, ms);
            && |t.clocks| == |t.runs| == |w.runs| && t.clocks == w.clocks && t.observe == w.observe
            && Acquiring(w, run, ms + [m]) == if Trying(t.runs[run]) then Called(t, run, m) else t
    decreases |ms|
  {
    hide Next;
    if Trying(w.runs[run]) {
      var n := if ms == [] then m else ms[0];
      NextKeepsShape(w.(store := n.store, now := n.now), Call(w.runs[run], run, n.readable));
      assert (ms + [m])[0] == n;
      if ms == [] {
        assert (ms + [m])[1..] == [];
        assert Acquiring(Called(w, run, m), run, []) == Called(w, run, m);
      } else {
        assert (ms + [m])[1..] == ms[1..] + [m];
        OneMoreCall(Called(w, run, n), run, ms[1..], m);
      }
    }
  }

  /** After these calls the protocol has the run in phase `p` over the store `s`. */
  ghost predicate Stands(w: World, run: Token, ms: seq<Meanwhile>, p: Phase, s: Store)
    requires |w.clocks| == |w.runs| && run < |w.runs|
  {
    var t := Acquiring(w, run, ms);
    && |t.clocks| == |t.runs| == |w.runs| && t.clocks == w.clocks && t.observe == w.observe
    && t.runs[run] == p && t.store == s
  }

  /** One call further, in whatever phase the run is. */
  lemma StandsNext(w: World, run: Token, ms: seq<Meanwhile>, i: nat, p: Phase, s: Store)
    requires |w.clocks| == |w.runs| && run < |w.runs| && i < |ms| && Stands(w, run, ms[..i], p, s)
    ensures p.Creating? ==>
              var made := Written(ms[i].store, LockFile(run, p.stamped + w.clocks[run]), p.stamped);
              if ms[i].store.lock.None? then Stands(w, run, ms[..i + 1], Holding(made.lock.value), made)
              else Stands(w, run, ms[..i + 1], Looking, ms[i].store)
    ensures p.Looking? ==>
              var seen := ms[i].store.lock;
              Stands(w, run, ms[..i + 1],
                     if seen.None? then Creating(ms[i].now)
                     else if Age(seen.value, ms[i].now + w.clocks[run]) <= LEASE_TTL then Watching(seen.value, ms[i].now)
                     else Stealing(seen.value, ms[i].now), ms[i].store)
    ensures p.Watching? ==>
              var seen := ms[i].store.lock;
              Stands(w, run, ms[..i + 1],
                     if ms[i].readable && seen.None? then Creating(ms[i].now)
                     else if ms[i].readable && seen.value.version != p.seen.version then Busy(p.seen, seen)
                     else if ms[i].now - p.since >= w.observe then Stealing(p.seen, ms[i].now)
                     else p, ms[i].store)
    ensures p.Stealing? ==>
              var made := Written(ms[i].store, LockFile(run, p.stamped + w.clocks[run]), p.stamped);
              if Unchanged(ms[i].store, p.seen) then Stands(w, run, ms[..i + 1], Holding(made.lock.value), made)
              else Stands(w, run, ms[..i + 1], Busy(p.seen, None), ms[i].store)
  {
    OneMoreCall(w, run, ms[..i], ms[i]);
    assert ms[..i] + [ms[i]] == ms[..i + 1];
    var t := Acquiring(w, run, ms[..i]);
    if Trying(p) {
      NextKeepsShape(t.(store := ms[i].store, now := ms[i].now), Call(p, run, ms[i].readable));
    }
    hide Acquiring, Age;
  }

  /** Further calls change nothing once it is settled. */
  lemma {:induction false} StandsToTheEnd(w: World, run: Token, ms: seq<Meanwhile>, i: nat, p: Phase, s: Store)
    requires |w.clocks| == |w.runs| && run < |w.runs| && i <= |ms| && Stands(w, run, ms[..i], p, s)
    requires i == |ms| || !Trying(p)
    ensures Stands(w, run, ms, p, s)
    decreases |ms| - i
  {
    if i == |ms| {
      assert ms[..i] == ms;
    } else {
      OneMoreCall(w, run, ms[..i], ms[i]);
      assert ms[..i] + [ms[i]] == ms[..i + 1];
      hide Acquiring, Called;
      StandsToTheEnd(w, run, ms, i + 1, p, s);
    }
  }

  /** The loop that takes the lock: it follows the protocol's steps. */
  method Acquire(store: S3Lock, ghost w: World, run: Token, clock: int, observe: nat, begun: nat, ms: seq<Meanwhile>)
    returns (end: Phase)
    requires |w.clocks| == |w.runs| && run < |w.runs| && w.runs[run] == Creating(begun)
    requires store.Contents() == w.store && w.clocks[run] == clock && w.observe == observe
    modifies store
    ensures Stands(w, run, ms, end, store.Contents())
  {
    hide Stands, Acquiring, Age, Next;
    var i: nat, stamp: nat := 0, begun;
    assert Stands(w, run, ms[..0], Creating(begun), w.store) by { BeforeAnyCall(w, run, ms, begun); }
    while true
      invariant 0 <= i <= |ms| && Stands(w, run, ms[..i], Creating(stamp), store.Contents())
      decreases |ms| - i
    {
      end := Creating(stamp);
      if i == |ms| { break; }
      StandsNext(w, run, ms, i, end, store.Contents());
      store.Others(ms[i].store);
      var created := store.Create(LockFile(run, stamp + clock), stamp);
      end := if created then Holding(store.current.value) else Looking;
      i := i + 1;
      if created || i == |ms| { break; }
      StandsNext(w, run, ms, i, Looking, store.Contents());
      store.Others(ms[i].store);
      stamp := ms[i].now;
      var seen := store.current;
      i := i + 1;
      if seen.None? { continue; }
      if Age(seen.value, stamp + clock) <= LEASE_TTL {
        var since: nat, gone := stamp, false;
        while true
          invariant 0 < i <= |ms| && Stands(w, run, ms[..i], Watching(seen.value, since), store.Contents())
          decreases |ms| - i
        {
          end := Watching(seen.value, since);
          if i == |ms| {
            StandsToTheEnd(w, run, ms, i, end, store.Contents());
            return;
          }
          StandsNext(w, run, ms, i, end, store.Contents());
          store.Others(ms[i].store);
          stamp := ms[i].now;
          var now := store.current;
          i := i + 1;
          if ms[i - 1].readable && now.None? {
            gone := true;
            break;
          }
          if ms[i - 1].readable && now.value.version != seen.value.version {
            end := Busy(seen.value, now);
            StandsToTheEnd(w, run, ms, i, end, store.Contents());
            return;
          }
          if stamp - since >= observe { break; }
        }
        if gone { continue; }
      }
      end := Stealing(seen.value, stamp);
      if i == |ms| { break; }
      StandsNext(w, run, ms, i, end, store.Contents());
      store.Others(ms[i].store);
      var replaced := store.Replace(seen.value, LockFile(run, stamp + clock), stamp);
      end := if replaced then Holding(store.current.value) else Busy(seen.value, None);
      i := i + 1;
      break;
    }
    StandsToTheEnd(w, run, ms, i, end, store.Contents());
  }

  lemma BeforeAnyCall(w: World, run: Token, ms: seq<Meanwhile>, begun: nat)
    requires |w.clocks| == |w.runs| && run < |w.runs| && w.runs[run] == Creating(begun)
    ensures Stands(w, run, ms[..0], Creating(begun), w.store)
  {
  }

  /** What a renewal does is the protocol's two steps, with others' doings in between. */
  lemma RenewIsTheProtocol(w: World, run: Token, m: Meanwhile)
    requires Inv(w) && run < |w.runs| && w.runs[run].Holding? && Later(w.store, m.store)
    ensures var a := Next(w, RenewReads(run));
            |a.runs| == |w.runs| && |a.clocks| == |a.runs|
    ensures var a := Next(w, RenewReads(run));
            var lost := !(HeldBy(w.store, run) && m.store.lock == w.store.lock);
            && (a.runs[run].Lost? <==> !HeldBy(w.store, run))
            && (a.runs[run].Renewing? ==>
                  var b := Next(a.(store := m.store, now := m.now), RenewLands(run));
                  && |b.runs| == |w.runs| && (b.runs[run].Lost? <==> lost)
                  && b.store == if lost then m.store else Written(m.store, LockFile(run, w.now + w.clocks[run]), w.now))
  {
    assert PhaseOk(w.store, run, w.runs[run], w.clocks[run]);
  }

  /** So is a release. */
  lemma ReleaseIsTheProtocol(w: World, run: Token, m: Meanwhile)
    requires |w.clocks| == |w.runs| && run < |w.runs| && (w.runs[run].Holding? || w.runs[run].Lost?)
    ensures var a := Next(w, ReleaseReads(run));
            |a.runs| == |w.runs| && |a.clocks| == |a.runs|
    ensures var a := Next(w, ReleaseReads(run));
            && (a.runs[run].Removing? <==> HeldBy(w.store, run))
            && (a.runs[run].Removing? ==>
                  var b := Next(a.(store := m.store, now := m.now), RemoveLands(run));
                  b.store == m.store.(lock := None) && |b.runs| == |w.runs| && b.runs[run].Released?)
            && (!a.runs[run].Removing? ==> a.store == w.store && a.runs[run].Released?)
  {
  }

  // ----- without timing -----------------------------------------------------------

  /** A lock a run remembers: the store holds that version only as that lock. */
  predicate Remembered(s: Store, seen: Lock) {
    seen.version < s.next && (Unchanged(s, seen) ==> s.lock.value == seen)
  }

  ghost predicate PhaseOk(s: Store, run: Token, p: Phase, clock: int) {
    && (p.Watching? || p.Stealing? || p.Renewing? ==> Remembered(s, p.seen))
    && (Live(p) ==> Remembered(s, p.mine) && p.mine.lease == Some(LockFile(run, p.mine.written + clock)))
    && (p.Renewing? ==> p.seen == p.mine)
    && (HeldBy(s, run) ==> (Live(p) && s.lock.value == p.mine) || p.Released? || p.Crashed?)
  }

  ghost predicate ChangesOk(s: Store, changes: seq<Change>) {
    && (forall i :: 0 <= i < |changes| && changes[i].Wrote? ==>
          && changes[i].lock.version < s.next
          && (s.lock.Some? ==> changes[i].lock.version <= s.lock.value.version)
          && (changes[i].over.Some? ==> changes[i].over.value.version < changes[i].lock.version)
          && (changes[i].how.Renewed? ==> changes[i].over.Some? && HeldBy(Store(changes[i].over, 0), changes[i].run))
          && (changes[i].how.Created? <==> changes[i].over.None?))
    && (forall i, j :: 0 <= i < j < |changes| && changes[i].Wrote? && changes[j].Wrote? && changes[j].over.Some? ==>
          changes[i].lock.version <= changes[j].over.value.version)
  }

  ghost predicate Inv(w: World) {
    && |w.clocks| == |w.runs|
    && WellFormed(w.store)
    && (forall i :: 0 <= i < |w.runs| ==> PhaseOk(w.store, i, w.runs[i], w.clocks[i]))
    && ChangesOk(w.store, w.changes)
  }

  lemma PutKeeps(w: World, run: Token, stamped: nat, how: How)
    requires Inv(w) && run < |w.runs|
    requires how.Renewed? ==> HeldBy(w.store, run)
    requires how.Created? <==> w.store.lock.None?
    ensures Inv(Put(w, run, stamped, how))
  {
  }

  lemma GotoKeeps(w: World, run: Token, p: Phase)
    requires Inv(w) && run < |w.runs| && PhaseOk(w.store, run, p, w.clocks[run])
    ensures Inv(Goto(w, run, p))
  {
    hide PhaseOk, ChangesOk;
  }

  lemma RemoveKeeps(w: World, run: Token)
    requires Inv(w) && CanStep(w, RemoveLands(run))
    ensures Inv(Next(w, RemoveLands(run)))
  {
    hide ChangesOk;
    RemoveKeepsChanges(w, run);
  }

  lemma RemoveKeepsChanges(w: World, run: Token)
    requires ChangesOk(w.store, w.changes)
    ensures ChangesOk(w.store.(lock := None), w.changes + [Removed(run, w.store.lock)])
  {
  }

  lemma StepKeeps(w: World, s: Step)
    requires Inv(w) && CanStep(w, s)
    ensures Inv(Next(w, s))
  {
    if s.Tick? { return; }
    hide ChangesOk;
    var t := Next(w, s);
    if s.RemoveLands? {
      RemoveKeeps(w, s.run);
    } else if t.changes == w.changes {
      assert PhaseOk(w.store, s.run, w.runs[s.run], w.clocks[s.run]);
      GotoKeeps(w, s.run, t.runs[s.run]);
    } else {
      assert PhaseOk(w.store, s.run, w.runs[s.run], w.clocks[s.run]);
      var how := if s.CreateLands? then Created else if s.StealLands? then Stole else Renewed;
      PutKeeps(w, s.run, w.runs[s.run].stamped, how);
    }
  }

  lemma {:induction false} RunKeeps(w: World, steps: seq<Step>)
    requires Inv(w) && Run(w, steps).Some?
    ensures Inv(Run(w, steps).value)
    decreases |steps|
  {
    hide PhaseOk, ChangesOk, Next, CanStep, WellFormed;
    if steps != [] {
      StepKeeps(w, steps[0]);
      RunKeeps(Next(w, steps[0]), steps[1..]);
    }
  }

  /** In every interleaving: a renewal replaces only its own token's lock, and
      no version is replaced twice, so at most one of the runs that steal the
      same lock gets it. */
  lemma OwnershipWithoutTiming(w: World, steps: seq<Step>)
    requires Initial(w) && Run(w, steps).Some?
    ensures var c := Run(w, steps).value.changes;
            && (forall i :: 0 <= i < |c| && c[i].Wrote? && c[i].how.Renewed? ==>
                  c[i].over.Some? && HeldBy(Store(c[i].over, 0), c[i].run))
            && (forall i, j :: 0 <= i < j < |c| && c[i].Wrote? && c[j].Wrote? && c[i].over.Some? && c[j].over.Some? ==>
                  c[i].over.value.version < c[j].over.value.version)
  {
    RunKeeps(w, steps);
  }

  /** A run that lost its lease, released it or gave up. */
  predicate Done(p: Phase) { p.Lost? || p.Busy? || p.Released? || p.Crashed? }

  predicate Untouched(changes: seq<Change>, run: Token) { forall k :: 0 <= k < |changes| ==> changes[k].run != run }

  lemma DoneStaysDone(w: World, s: Step, run: Token)
    requires Inv(w) && CanStep(w, s) && run < |w.runs| && Done(w.runs[run])
    ensures Done(Next(w, s).runs[run]) && w.changes <= Next(w, s).changes
    ensures Untouched(Next(w, s).changes[|w.changes|..], run)
  {
    assert PhaseOk(w.store, run, w.runs[run], w.clocks[run]);
  }

  /** A released or lost lease never writes, or removes, again. */
  lemma {:induction false} NeverWritesAgain(w: World, steps: seq<Step>, run: Token)
    requires |w.clocks| == |w.runs| && Inv(w) && Run(w, steps).Some? && run < |w.runs| && Done(w.runs[run])
    ensures w.changes <= Run(w, steps).value.changes
    ensures Untouched(Run(w, steps).value.changes[|w.changes|..], run)
    decreases |steps|
  {
    hide Inv, Next, CanStep, Done;
    if steps != [] {
      var t := Next(w, steps[0]);
      DoneStaysDone(w, steps[0], run);
      StepKeeps(w, steps[0]);
      NextKeepsShape(w, steps[0]);
      NeverWritesAgain(t, steps[1..], run);
      var end := Run(w, steps).value.changes;
      assert end[|w.changes|..] == t.changes[|w.changes|..] + end[|t.changes|..];
    }
  }

  lemma NextKeepsShape(w: World, s: Step)
    requires CanStep(w, s) && |w.clocks| == |w.runs|
    ensures |Next(w, s).runs| == |w.runs| && Next(w, s).clocks == w.clocks && Next(w, s).observe == w.observe
  {
  }

  // ----- with timing --------------------------------------------------------------

  /** The time by which a run's next write, or its end, is due: a live holder's
      lease is never more than `r` old, and an acquisition's write lands within
      `r` of its stamp. */
  predicate InTime(p: Phase, now: nat, r: nat) {
    && (Live(p) ==> now <= p.mine.written + r)
    && (p.Creating? || p.Stealing? ==> now <= p.stamped + r)
  }

  /** Time passes only while everybody is in time. */
  predicate Timely(w: World, s: Step, r: nat) {
    s.Tick? ==> forall i :: 0 <= i < |w.runs| ==> InTime(w.runs[i], w.now + 1, r)
  }

  function TimedRun(w: World, steps: seq<Step>, r: nat): Option<World>
    requires |w.clocks| == |w.runs|
    decreases |steps|
  {
    if steps == [] then Some(w)
    else if CanStep(w, steps[0]) && Timely(w, steps[0], r) then TimedRun(Next(w, steps[0]), steps[1..], r)
    else None
  }

  /** The wall clocks differ by at most `skew`. */
  predicate Skewed(clocks: seq<int>, skew: nat) {
    forall i, j :: 0 <= i < |clocks| && 0 <= j < |clocks| ==> clocks[i] - clocks[j] <= skew
  }

  /** What a run knows about the lock it wants, or has. */
  ghost predicate TimedPhase(w: World, i: nat, r: nat)
    requires i < |w.runs|
  {
    var p := w.runs[i];
    && InTime(p, w.now, r)
    && (Live(p) ==> w.store.lock == Some(p.mine) && p.mine.written <= w.now)
    && !p.Lost?
    && (p.Watching? ==> p.seen.written <= p.since <= w.now)
    && (p.Creating? || p.Stealing? || p.Renewing? ==> p.stamped <= w.now)
    && (p.Renewing? ==> p.mine.written <= p.stamped)
    && (p.Stealing? ==> forall k :: 0 <= k < |w.runs| && Live(w.runs[k]) ==> w.runs[k].mine.version != p.seen.version)
  }

  ghost predicate TimedInv(w: World, r: nat, skew: nat) {
    && Inv(w)
    && Skewed(w.clocks, skew) && r + skew <= LEASE_TTL && r < w.observe
    && (w.store.lock.Some? ==> w.store.lock.value.written <= w.now)
    && (forall i :: 0 <= i < |w.runs| ==> TimedPhase(w, i, r))
    && (forall k :: 0 <= k < |w.changes| && w.changes[k].Removed? ==> HeldBy(Store(w.changes[k].over, 0), w.changes[k].run))
  }

  /** All live runs hold the one lock there is. */
  lemma OneLive(w: World, r: nat, skew: nat, i: nat, j: nat)
    requires TimedInv(w, r, skew) && i < |w.runs| && j < |w.runs| && Live(w.runs[i]) && Live(w.runs[j])
    ensures i == j
  {
    assert TimedPhase(w, i, r) && TimedPhase(w, j, r);
    assert PhaseOk(w.store, i, w.runs[i], w.clocks[i]) && PhaseOk(w.store, j, w.runs[j], w.clocks[j]);
  }

  /** The lease of a run that is alive never looks expired, on any clock. */
  lemma LiveLeaseLooksLive(w: World, r: nat, skew: nat, looker: nat, k: nat)
    requires TimedInv(w, r, skew) && looker < |w.runs| && k < |w.runs| && Live(w.runs[k])
    ensures w.store.lock == Some(w.runs[k].mine) && Age(w.runs[k].mine, w.now + w.clocks[looker]) <= LEASE_TTL
  {
    assert TimedPhase(w, k, r) && PhaseOk(w.store, k, w.runs[k], w.clocks[k]);
    assert w.clocks[looker] - w.clocks[k] <= skew;
  }

  /** The lock of a run that is alive is never watched to the end, whatever the clocks show. */
  lemma LiveLeaseIsRenewedInTime(w: World, r: nat, skew: nat, watcher: nat, k: nat)
    requires TimedInv(w, r, skew) && watcher < |w.runs| && k < |w.runs| && Live(w.runs[k])
    requires w.runs[watcher].Watching? && w.runs[k].mine.version == w.runs[watcher].seen.version
    ensures w.now - w.runs[watcher].since < w.observe
  {
    assert TimedPhase(w, k, r) && PhaseOk(w.store, k, w.runs[k], w.clocks[k]);
    assert TimedPhase(w, watcher, r) && PhaseOk(w.store, watcher, w.runs[watcher], w.clocks[watcher]);
  }

  lemma TickKeeps(w: World, r: nat, skew: nat)
    requires TimedInv(w, r, skew) && Timely(w, Tick, r)
    ensures TimedInv(Next(w, Tick), r, skew)
  {
    StepKeeps(w, Tick);
    var t := Next(w, Tick);
    forall i | 0 <= i < |t.runs| ensures TimedPhase(t, i, r) { assert TimedPhase(w, i, r); }
  }

  /** The run that takes the step stays in time. */
  lemma OwnStepIsTimed(w: World, s: Step, r: nat, skew: nat)
    requires TimedInv(w, r, skew) && CanStep(w, s) && !s.Tick?
    ensures TimedPhase(Next(w, s), s.run, r)
  {
    assert TimedPhase(w, s.run, r) && PhaseOk(w.store, s.run, w.runs[s.run], w.clocks[s.run]);
    if Next(w, s).runs[s.run].Stealing? { StealingStays(w, s, r, skew, s.run); }
  }

  /** So does every other. */
  lemma OthersStayTimed(w: World, s: Step, r: nat, skew: nat, i: nat)
    requires TimedInv(w, r, skew) && CanStep(w, s) && !s.Tick? && i < |w.runs| && i != s.run
    ensures TimedPhase(Next(w, s), i, r)
  {
    assert TimedPhase(w, s.run, r) && PhaseOk(w.store, s.run, w.runs[s.run], w.clocks[s.run]);
    assert TimedPhase(w, i, r) && PhaseOk(w.store, i, w.runs[i], w.clocks[i]);
    if Next(w, s).runs[i].Stealing? { StealingStays(w, s, r, skew, i); }
  }

  lemma RemovalsStayOwn(w: World, s: Step, r: nat, skew: nat)
    requires TimedInv(w, r, skew) && CanStep(w, s) && !s.Tick?
    ensures var t := Next(w, s);
            && (forall k :: 0 <= k < |t.changes| && t.changes[k].Removed? ==> HeldBy(Store(t.changes[k].over, 0), t.changes[k].run))
            && (t.store.lock.Some? ==> t.store.lock.value.written <= t.now)
  {
    assert TimedPhase(w, s.run, r) && PhaseOk(w.store, s.run, w.runs[s.run], w.clocks[s.run]);
  }

  lemma TimedStepKeeps(w: World, s: Step, r: nat, skew: nat)
    requires TimedInv(w, r, skew) && CanStep(w, s) && Timely(w, s, r)
    ensures TimedInv(Next(w, s), r, skew)
  {
    if s.Tick? {
      TickKeeps(w, r, skew);
    } else {
      hide TimedPhase, Inv, CanStep, Next, Timely;
      StepKeeps(w, s);
      NextKeepsShape(w, s);
      RemovalsStayOwn(w, s, r, skew);
      forall i | 0 <= i < |w.runs| ensures TimedPhase(Next(w, s), i, r) {
        if i == s.run { OwnStepIsTimed(w, s, r, skew); } else { OthersStayTimed(w, s, r, skew, i); }
      }
    }
  }

  /** Nobody that is alive is ever about to be robbed. */
  lemma StealingStays(w: World, s: Step, r: nat, skew: nat, i: nat)
    requires TimedInv(w, r, skew) && CanStep(w, s) && !s.Tick? && i < |w.runs|
    requires Next(w, s).runs[i].Stealing?
    ensures var t := Next(w, s);
            forall k :: 0 <= k < |t.runs| && Live(t.runs[k]) ==> t.runs[k].mine.version != t.runs[i].seen.version
  {
    var t := Next(w, s);
    forall k | 0 <= k < |t.runs| && Live(t.runs[k])
      ensures t.runs[k].mine.version != t.runs[i].seen.version
    {
      NotRobbed(w, s, r, skew, i, k);
    }
  }

  lemma NotRobbed(w: World, s: Step, r: nat, skew: nat, i: nat, k: nat)
    requires TimedInv(w, r, skew) && CanStep(w, s) && !s.Tick? && i < |w.runs| && k < |w.runs|
    requires Next(w, s).runs[i].Stealing? && Live(Next(w, s).runs[k])
    ensures Next(w, s).runs[k].mine.version != Next(w, s).runs[i].seen.version
  {
    assert TimedPhase(w, i, r) && PhaseOk(w.store, i, w.runs[i], w.clocks[i]);
    assert TimedPhase(w, k, r) && PhaseOk(w.store, k, w.runs[k], w.clocks[k]);
    if i == s.run && Live(w.runs[k]) {
      LiveLeaseLooksLive(w, r, skew, i, k);
      if w.runs[i].Watching? && w.runs[k].mine.version == w.runs[i].seen.version {
        LiveLeaseIsRenewedInTime(w, r, skew, i, k);
      }
    }
  }

  lemma {:induction false} TimedRunKeeps(w: World, steps: seq<Step>, r: nat, skew: nat)
    requires TimedInv(w, r, skew) && TimedRun(w, steps, r).Some?
    ensures TimedInv(TimedRun(w, steps, r).value, r, skew)
    decreases |steps|
  {
    if steps != [] {
      TimedStepKeeps(w, steps[0], r, skew);
      TimedRunKeeps(Next(w, steps[0]), steps[1..], r, skew);
    }
  }

  /** If a live holder's lease is never more than `r` old, wall clocks differ by
      at most `skew`, `r + skew` is within the TTL and the observe window
      exceeds `r`: at every moment at most one guard is live, nobody loses a
      lease, and a release removes its own lock only. */
  lemma MutualExclusion(w: World, steps: seq<Step>, r: nat, skew: nat)
    requires Initial(w) && (w.store.lock.Some? ==> w.store.lock.value.written <= w.now)
    requires Skewed(w.clocks, skew) && r + skew <= LEASE_TTL && r < w.observe
    requires TimedRun(w, steps, r).Some?
    ensures var t := TimedRun(w, steps, r).value;
            && (forall i, j :: 0 <= i < |t.runs| && 0 <= j < |t.runs| && Live(t.runs[i]) && Live(t.runs[j]) ==> i == j)
            && (forall i :: 0 <= i < |t.runs| ==> !t.runs[i].Lost?)
            && (forall k :: 0 <= k < |t.changes| && t.changes[k].Removed? ==>
                  HeldBy(Store(t.changes[k].over, 0), t.changes[k].run))
  {
    TimedRunKeeps(w, steps, r, skew);
    var t := TimedRun(w, steps, r).value;
    forall i, j | 0 <= i < |t.runs| && 0 <= j < |t.runs| && Live(t.runs[i]) && Live(t.runs[j])
      ensures i == j
    {
      OneLive(t, r, skew, i, j);
    }
    forall i | 0 <= i < |t.runs| ensures !t.runs[i].Lost? {
      assert TimedPhase(t, i, r);
    }
  }

  // ----- both bounds are tight ---------------------------------------------------------

  /** A world in which `MutualExclusion` may begin, but for its two bounds. */
  predicate Allowed(w: World, skew: nat, observe: nat) {
    && Initial(w) && (w.store.lock.Some? ==> w.store.lock.value.written <= w.now)
    && Skewed(w.clocks, skew) && w.observe == observe
  }

  predicate AtMostOneGuard(w: World) {
    forall i, j :: 0 <= i < |w.runs| && 0 <= j < |w.runs| && Live(w.runs[i]) && Live(w.runs[j]) ==> i == j
  }

  /** No run allowed by the timing ever has two live guards. */
  ghost predicate Excludes(r: nat, skew: nat, observe: nat) {
    forall w, steps :: Allowed(w, skew, observe) && TimedRun(w, steps, r).Some? ==> AtMostOneGuard(TimedRun(w, steps, r).value)
  }

  /** Nothing but time passes. */
  function Ticks(n: nat): seq<Step> {
    if n == 0 then [] else [Tick] + Ticks(n - 1)
  }

  lemma {:induction false} TimePasses(w: World, n: nat, rest: seq<Step>, r: nat)
    requires |w.clocks| == |w.runs| && forall i :: 0 <= i < |w.runs| ==> InTime(w.runs[i], w.now + n, r)
    ensures TimedRun(w, Ticks(n) + rest, r) == TimedRun(w.(now := w.now + n), rest, r)
    decreases n
  {
    if n == 0 {
      assert Ticks(n) + rest == rest;
      assert w.(now := w.now + n) == w;
    } else {
      assert (Ticks(n) + rest)[1..] == Ticks(n - 1) + rest;
      TimePasses(Next(w, Tick), n - 1, rest, r);
    }
  }

  lemma TimedStep(w: World, s: Step, rest: seq<Step>, r: nat)
    requires |w.clocks| == |w.runs| && CanStep(w, s) && !s.Tick?
    ensures |Next(w, s).clocks| == |Next(w, s).runs|
    ensures TimedRun(w, [s] + rest, r) == TimedRun(Next(w, s), rest, r)
  {
    NextKeepsShape(w, s);
    hide Next, CanStep;
    assert ([s] + rest)[1..] == rest;
  }

  /** Two runs, of which none has begun; the clock of the second is `skew` ahead. */
  function TwoRuns(skew: nat, observe: nat): World {
    World(Store(None, 0), [Idle, Idle], [0, skew], 0, observe, [])
  }

  /** The same, once the first has taken the lock and `age` has passed. */
  function Taken(skew: nat, observe: nat, age: nat): World {
    Next(Next(TwoRuns(skew, observe), Begin(0)), CreateLands(0)).(now := age)
  }

  lemma TakesAndAges(skew: nat, observe: nat, age: nat, rest: seq<Step>, r: nat)
    requires age <= r
    ensures TimedRun(TwoRuns(skew, observe), [Begin(0)] + ([CreateLands(0)] + (Ticks(age) + rest)), r)
            == TimedRun(Taken(skew, observe, age), rest, r)
  {
    var w := TwoRuns(skew, observe);
    TimedStep(w, Begin(0), [CreateLands(0)] + (Ticks(age) + rest), r);
    TimedStep(Next(w, Begin(0)), CreateLands(0), Ticks(age) + rest, r);
    TimePasses(Taken(skew, observe, 0), age, rest, r);
  }

  /** A lease of age `r` looks older than the TTL on a clock that is ahead: it
      is stolen at the first look. */
  lemma LooksExpired(r: nat, skew: nat, observe: nat) returns (steps: seq<Step>)
    requires r + skew > LEASE_TTL
    ensures TimedRun(TwoRuns(skew, observe), steps, r).Some?
    ensures !AtMostOneGuard(TimedRun(TwoRuns(skew, observe), steps, r).value)
  {
    var a := Taken(skew, observe, r);
    var b := Next(a, Begin(1));
    var c := Next(b, CreateLands(1));
    var d := Next(c, Look(1));
    var e := Next(d, StealLands(1));
    assert d.runs[1] == Stealing(a.store.lock.value, r);
    assert Live(e.runs[0]) && Live(e.runs[1]);
    TimedStep(d, StealLands(1), [], r);
    TimedStep(c, Look(1), [StealLands(1)] + [], r);
    TimedStep(b, CreateLands(1), [Look(1)] + ([StealLands(1)] + []), r);
    var rest := [CreateLands(1)] + ([Look(1)] + ([StealLands(1)] + []));
    TimedStep(a, Begin(1), rest, r);
    TakesAndAges(skew, observe, r, [Begin(1)] + rest, r);
    steps := [Begin(0)] + ([CreateLands(0)] + (Ticks(r) + ([Begin(1)] + rest)));
  }

  /** A lock renewed no sooner than the observe window is watched to its end. */
  lemma LooksAbandoned(r: nat, observe: nat) returns (steps: seq<Step>)
    requires r >= observe
    ensures TimedRun(TwoRuns(0, observe), steps, r).Some?
    ensures !AtMostOneGuard(TimedRun(TwoRuns(0, observe), steps, r).value)
  {
    var a := Taken(0, observe, 0);
    var d := Watched(observe);
    var tail := [Poll(1, true)] + ([StealLands(1)] + []);
    assert d.runs == [Holding(a.store.lock.value), Watching(a.store.lock.value, 0)] && d.store == a.store;
    TimePasses(d, observe, tail, r);
    PollsAndSteals(d.(now := observe), r);
    Watches(observe, Ticks(observe) + tail, r);
    var rest := [CreateLands(1)] + ([Look(1)] + (Ticks(observe) + tail));
    TakesAndAges(0, observe, 0, [Begin(1)] + rest, r);
    steps := [Begin(0)] + ([CreateLands(0)] + (Ticks(0) + ([Begin(1)] + rest)));
  }

  /** Once the second looked and found the lock in use. */
  function Watched(observe: nat): World {
    Next(Next(Next(Taken(0, observe, 0), Begin(1)), CreateLands(1)), Look(1))
  }

  lemma Watches(observe: nat, rest: seq<Step>, r: nat)
    ensures TimedRun(Taken(0, observe, 0), [Begin(1)] + ([CreateLands(1)] + ([Look(1)] + rest)), r)
            == TimedRun(Watched(observe), rest, r)
  {
    var a := Taken(0, observe, 0);
    var b := Next(a, Begin(1));
    var c := Next(b, CreateLands(1));
    TimedStep(c, Look(1), rest, r);
    TimedStep(b, CreateLands(1), [Look(1)] + rest, r);
    TimedStep(a, Begin(1), [CreateLands(1)] + ([Look(1)] + rest), r);
  }

  /** The watcher of an unchanged lock, at the end of the window. */
  lemma PollsAndSteals(w: World, r: nat)
    requires |w.clocks| == |w.runs| == 2 && w.store.lock.Some? && Live(w.runs[0])
    requires w.runs[1] == Watching(w.store.lock.value, 0) && w.now >= w.observe
    ensures var steps := [Poll(1, true)] + ([StealLands(1)] + []);
            TimedRun(w, steps, r).Some? && !AtMostOneGuard(TimedRun(w, steps, r).value)
  {
    var a := Next(w, Poll(1, true));
    var b := Next(a, StealLands(1));
    assert Live(b.runs[0]) && Live(b.runs[1]);
    TimedStep(a, StealLands(1), [], r);
    TimedStep(w, Poll(1, true), [StealLands(1)] + [], r);
  }

  /** The lock excludes exactly under these bounds: whatever the renewal bound,
      the skew and the observe window, no allowed run has two live guards if and
      only if `r + skew` is within the TTL of 15 seconds and the window exceeds
      `r`. */
  lemma ExcludesIffTiming(r: nat, skew: nat, observe: nat)
    ensures Excludes(r, skew, observe) <==> r + skew <= 15_000 && r < observe
  {
    hide Next, CanStep, Timely;
    if r + skew <= LEASE_TTL && r < observe {
      forall w, steps | Allowed(w, skew, observe) && TimedRun(w, steps, r).Some?
        ensures AtMostOneGuard(TimedRun(w, steps, r).value)
      {
        MutualExclusion(w, steps, r, skew);
      }
    } else if r + skew > LEASE_TTL {
      var steps := LooksExpired(r, skew, observe);
      assert Allowed(TwoRuns(skew, observe), skew, observe);
    } else {
      var steps := LooksAbandoned(r, observe);
      assert Allowed(TwoRuns(0, observe), skew, observe);
    }
  }

  /** And a release removes the other run's lock, because its read and its
      remove are two steps. */
  lemma ReleaseCanRemoveTheOthersLock(w: World)
    requires Initial(w) && w.store.lock.None? && w.now == 0 && w.clocks == [0, LEASE_TTL + 1] && |w.runs| == 2
    ensures var stray := Run(w, [Begin(0), CreateLands(0), ReleaseReads(0), Begin(1), CreateLands(1), Look(1), StealLands(1), RemoveLands(0)]);
            stray.Some? && var c := stray.value.changes;
            c != [] && c[|c| - 1].Removed? && !HeldBy(Store(c[|c| - 1].over, 0), c[|c| - 1].run)
  {
    var w2 := Next(Next(w, Begin(0)), CreateLands(0));
    var w3 := Next(w2, ReleaseReads(0));
    Steals(w3);
    var steal := [Begin(1), CreateLands(1), Look(1), StealLands(1)];
    var tail := [ReleaseReads(0)] + (steal + [RemoveLands(0)]);
    RunOfTwo(w, Begin(0), CreateLands(0), tail);
    assert [Begin(0), CreateLands(0)] + tail
           == [Begin(0), CreateLands(0), ReleaseReads(0), Begin(1), CreateLands(1), Look(1), StealLands(1), RemoveLands(0)];
    assert tail[1..] == steal + [RemoveLands(0)];
    RunAppend(w3, steal, RemoveLands(0));
  }

  /** Run 1, whose clock is ahead, takes the lock run 0 has just written. */
  lemma Steals(w: World)
    requires |w.runs| == 2 && w.clocks == [0, LEASE_TTL + 1] && w.now == 0 && w.runs[1].Idle?
    requires w.store.lock.Some? && w.store.lock.value.lease == Some(LockFile(0, 0))
    ensures var t := Run(w, [Begin(1), CreateLands(1), Look(1), StealLands(1)]);
            && t.Some? && Live(t.value.runs[1]) && t.value.runs[0] == w.runs[0] && |t.value.runs| == 2
            && HeldBy(t.value.store, 1)
  {
    var a := Next(w, Begin(1));
    var b := Next(a, CreateLands(1));
    var c := Next(b, Look(1));
    assert c.runs[1] == Stealing(w.store.lock.value, 0);
    var d := Next(c, StealLands(1));
    RunOfTwo(w, Begin(1), CreateLands(1), [Look(1), StealLands(1)]);
    RunOfTwo(b, Look(1), StealLands(1), []);
    assert Run(d, []) == Some(d);
  }

  lemma RunOfTwo(w: World, s: Step, t: Step, rest: seq<Step>)
    requires |w.clocks| == |w.runs| && CanStep(w, s) && CanStep(Next(w, s), t)
    ensures Run(w, [s, t] + rest) == Run(Next(Next(w, s), t), rest)
  {
    hide Next, CanStep;
    var all := [s, t] + rest;
    assert all[1..] == [t] + rest && all[1..][1..] == rest;
    NextKeepsShape(w, s);
  }

  lemma {:induction false} RunAppend(w: World, steps: seq<Step>, last: Step)
    requires |w.clocks| == |w.runs| && Run(w, steps).Some? && CanStep(Run(w, steps).value, last)
    ensures |Run(w, steps).value.clocks| == |Run(w, steps).value.runs|
    ensures Run(w, steps + [last]) == Some(Next(Run(w, steps).value, last))
    decreases |steps|
  {
    hide Next, CanStep;
    if steps == [] {
      NextKeepsShape(w, last);
      assert [last][1..] == [];
      assert Run(Next(w, last), []) == Some(Next(w, last));
      assert steps + [last] == [last];
    } else {
      NextKeepsShape(w, steps[0]);
      RunAppend(Next(w, steps[0]), steps[1..], last);
      assert (steps + [last])[1..] == steps[1..] + [last];
    }
  }

  /** A crashed holder's lock does not stay: whoever watched it unchanged for
      the observe window gets it, whatever the clocks show. */
  lemma AbandonedLockIsTaken(w: World, run: Token, readable: bool)
    requires |w.clocks| == |w.runs| && run < |w.runs| && w.runs[run].Watching?
    requires Unchanged(w.store, w.runs[run].seen) && w.now - w.runs[run].since >= w.observe
    ensures var t := Run(w, [Poll(run, readable), StealLands(run)]);
            t.Some? && |t.value.runs| == |w.runs| && Live(t.value.runs[run]) && HeldBy(t.value.store, run)
  {
    var a := Next(w, Poll(run, readable));
    RunOfTwo(w, Poll(run, readable), StealLands(run), []);
    assert [Poll(run, readable), StealLands(run)] + [] == [Poll(run, readable), StealLands(run)];
  }

  // ----- who is refused, and who is not -----------------------------------------------

  /** A run that has not taken the lock, or never will. */
  predicate Outside(p: Phase) { p.Idle? || p.Creating? || p.Looking? || p.Watching? || p.Stealing? || p.Busy? }

  /** That lock was written over or removed. */
  predicate TakenOver(changes: seq<Change>, seen: Lock) {
    exists k :: 0 <= k < |changes| && changes[k].over.Some? && changes[k].over.value.version == seen.version
  }

  predicate WrittenByARun(changes: seq<Change>, lock: Lock) {
    exists k :: 0 <= k < |changes| && changes[k].Wrote? && changes[k].lock == lock
  }

  /** The lock in store was there from the beginning, or a run wrote it. */
  predicate Traced(w: World, first: Option<Lock>) {
    w.store.lock.Some? ==> w.store.lock == first || WrittenByARun(w.changes, w.store.lock.value)
  }

  /** What a run outside knows of the lock it found. */
  ghost predicate Knows(w: World, first: Option<Lock>, i: nat)
    requires i < |w.runs|
  {
    var p := w.runs[i];
    && (Outside(p) ==> Untouched(w.changes, i))
    && (p.Watching? || p.Stealing? ==>
          && (Unchanged(w.store, p.seen) || TakenOver(w.changes, p.seen))
          && (w.store.lock.Some? ==> p.seen.version <= w.store.lock.value.version)
          && (first.Some? ==> first.value.version <= p.seen.version))
    && (p.Busy? ==>
          && TakenOver(w.changes, p.seen)
          && (p.found.Some? ==> WrittenByARun(w.changes, p.found.value) && p.seen.version < p.found.value.version))
  }

  ghost predicate HistoryKept(w: World, first: Option<Lock>) {
    && Traced(w, first)
    && (first.Some? ==> first.value.version < w.store.next && (w.store.lock.Some? ==> first.value.version <= w.store.lock.value.version))
    && (forall i :: 0 <= i < |w.runs| ==> Knows(w, first, i))
  }

  /** The step wrote or removed the lock, and says so at the end of the log. */
  predicate Changed(w: World, t: World, run: Token) {
    && |t.changes| == |w.changes| + 1 && w.changes == t.changes[..|w.changes|]
    && var c := t.changes[|w.changes|];
    && c.run == run && c.over == w.store.lock
    && (c.Wrote? ==> t.store == Store(Some(c.lock), w.store.next + 1) && c.lock.version == w.store.next)
    && (c.Removed? ==> t.store == Store(None, w.store.next))
  }

  lemma ChangesGrow(w: World, s: Step)
    requires CanStep(w, s) && |w.clocks| == |w.runs|
    ensures var t := Next(w, s);
            && |t.runs| == |w.runs|
            && ((t.changes == w.changes && t.store == w.store) || (!s.Tick? && Changed(w, t, s.run) && !Outside(t.runs[s.run])))
    ensures forall i :: 0 <= i < |w.runs| && (s.Tick? || i != s.run) ==> Next(w, s).runs[i] == w.runs[i]
  {
  }

  lemma TakenOverStays(w: World, t: World, seen: Lock)
    requires w.changes <= t.changes
    ensures TakenOver(w.changes, seen) ==> TakenOver(t.changes, seen)
  {
    if TakenOver(w.changes, seen) {
      var k :| 0 <= k < |w.changes| && w.changes[k].over.Some? && w.changes[k].over.value.version == seen.version;
      assert t.changes[k].over.value.version == seen.version;
    }
  }

  lemma WrittenStays(w: World, t: World, lock: Lock)
    requires w.changes <= t.changes
    ensures WrittenByARun(w.changes, lock) ==> WrittenByARun(t.changes, lock)
  {
    if WrittenByARun(w.changes, lock) {
      var k :| 0 <= k < |w.changes| && w.changes[k].Wrote? && w.changes[k].lock == lock;
      assert t.changes[k].lock == lock;
    }
  }

  /** The lock in store. */
  lemma TracedStays(w: World, s: Step, first: Option<Lock>)
    requires Inv(w) && HistoryKept(w, first) && CanStep(w, s)
    ensures var t := Next(w, s);
            && Traced(t, first)
            && (first.Some? ==> first.value.version < t.store.next && (t.store.lock.Some? ==> first.value.version <= t.store.lock.value.version))
  {
    var t := Next(w, s);
    ChangesGrow(w, s);
    hide Next, CanStep, PhaseOk, ChangesOk, Knows;
    if t.changes != w.changes && t.store.lock.Some? {
      assert t.changes[|w.changes|].lock == t.store.lock.value;
    }
  }

  /** A run the step is not by. */
  lemma OthersStillKnow(w: World, s: Step, first: Option<Lock>, i: nat)
    requires Inv(w) && HistoryKept(w, first) && CanStep(w, s) && i < |w.runs| && (s.Tick? || i != s.run)
    ensures |Next(w, s).runs| == |w.runs| && Knows(Next(w, s), first, i)
  {
    var t, p := Next(w, s), w.runs[i];
    ChangesGrow(w, s);
    NextKeepsShape(w, s);
    assert Knows(w, first, i) && PhaseOk(w.store, i, p, w.clocks[i]);
    hide Next, CanStep, ChangesOk;
    if t.changes != w.changes {
      assert w.changes <= t.changes;
      if p.Watching? || p.Stealing? || p.Busy? { TakenOverStays(w, t, p.seen); }
      if p.Busy? && p.found.Some? { WrittenStays(w, t, p.found.value); }
      if (p.Watching? || p.Stealing?) && Unchanged(w.store, p.seen) {
        assert t.changes[|w.changes|].over.value.version == p.seen.version;
      }
    }
  }

  /** The run whose step it is. */
  lemma OwnStepKnows(w: World, s: Step, first: Option<Lock>)
    requires Inv(w) && HistoryKept(w, first) && CanStep(w, s) && !s.Tick?
    ensures |Next(w, s).runs| == |w.runs| && Knows(Next(w, s), first, s.run)
  {
    var t, p := Next(w, s), w.runs[s.run];
    ChangesGrow(w, s);
    NextKeepsShape(w, s);
    assert Knows(w, first, s.run) && PhaseOk(w.store, s.run, p, w.clocks[s.run]);
    hide ChangesOk, TakenOver, WrittenByARun, Untouched;
  }

  lemma {:induction false} HistoryStays(w: World, steps: seq<Step>, first: Option<Lock>)
    requires Inv(w) && HistoryKept(w, first) && Run(w, steps).Some?
    ensures HistoryKept(Run(w, steps).value, first)
    decreases |steps|
  {
    if steps != [] {
      var s := steps[0];
      StepKeeps(w, s);
      TracedStays(w, s, first);
      NextKeepsShape(w, s);
      hide Knows, Next, CanStep, Inv, Traced;
      forall i | 0 <= i < |w.runs| ensures Knows(Next(w, s), first, i) {
        if !s.Tick? && i == s.run { OwnStepKnows(w, s, first); } else { OthersStillKnow(w, s, first, i); }
      }
      HistoryStays(Next(w, s), steps[1..], first);
    }
  }

  /** In every run: who is refused never changed anything and had found a lock
      that was then written over or removed by another run; if it read a lock
      in its place, a run had written that one later. */
  lemma RefusedOnlyByAnother(w: World, steps: seq<Step>, run: Token)
    requires Initial(w) && Run(w, steps).Some? && run < |Run(w, steps).value.runs|
    requires Run(w, steps).value.runs[run].Busy?
    ensures var t := Run(w, steps).value;
            var p := t.runs[run];
            && Untouched(t.changes, run)
            && TakenOver(t.changes, p.seen)
            && (p.found.Some? ==> WrittenByARun(t.changes, p.found.value) && p.seen.version < p.found.value.version)
  {
    HistoryStays(w, steps, w.store.lock);
    assert Knows(Run(w, steps).value, w.store.lock, run);
  }

  predicate OnlyOthers(steps: seq<Step>, run: Token) { forall k :: 0 <= k < |steps| ==> steps[k].Tick? || steps[k].run != run }

  predicate NobodyWrote(changes: seq<Change>) { forall k :: 0 <= k < |changes| ==> !changes[k].Wrote? }

  /** While only others take steps a run stays where it is; where nobody writes,
      no lock appears. */
  lemma {:induction false} OthersLeaveARunAlone(w: World, steps: seq<Step>, run: Token)
    requires |w.clocks| == |w.runs| && run < |w.runs| && Run(w, steps).Some? && OnlyOthers(steps, run)
    ensures var t := Run(w, steps).value;
            && |t.clocks| == |t.runs| == |w.runs| && t.clocks == w.clocks && t.runs[run] == w.runs[run] && w.changes <= t.changes
            && (w.store.lock.None? && NobodyWrote(t.changes[|w.changes|..]) ==> t.store.lock.None?)
            && (NobodyWrote(t.changes[|w.changes|..]) ==> t.store.lock == w.store.lock || t.store.lock.None?)
    decreases |steps|
  {
    if steps != [] {
      var s := steps[0];
      ChangesGrow(w, s);
      NextKeepsShape(w, s);
      hide Next, CanStep;
      var n := Next(w, s);
      OthersLeaveARunAlone(n, steps[1..], run);
      var t := Run(w, steps).value;
      if NobodyWrote(t.changes[|w.changes|..]) {
        assert t.changes[|n.changes|..] == t.changes[|w.changes|..][|n.changes| - |w.changes|..];
        if n.changes != w.changes {
          assert t.changes[|w.changes|..][0] == n.changes[|w.changes|];
        }
      }
    }
  }

  /** The run sees that there is no lock: at its look, or at a readable poll. */
  predicate FindsNone(w: World, s: Step) {
    CanStep(w, s) && w.store.lock.None? && (s.Look? || (s.Poll? && s.readable))
  }

  lemma {:induction false} RunJoins(w: World, steps: seq<Step>, more: seq<Step>)
    requires |w.clocks| == |w.runs| && Run(w, steps).Some?
    ensures |Run(w, steps).value.clocks| == |Run(w, steps).value.runs|
    ensures Run(w, steps + more) == Run(Run(w, steps).value, more)
    decreases |steps|
  {
    hide Next, CanStep;
    if steps == [] {
      assert steps + more == more;
    } else {
      NextKeepsShape(w, steps[0]);
      RunJoins(Next(w, steps[0]), steps[1..], more);
      assert (steps + more)[1..] == steps[1..] + more;
    }
  }

  /** A run that finds no lock is not refused: it races for it. Whatever the
      others do until its create lands, it gets the lock exactly when there is
      none then, and there is none if nobody wrote one; else it looks again. */
  lemma FreeLockIsRacedFor(w: World, s: Step, others: seq<Step>)
    requires |w.clocks| == |w.runs| && FindsNone(w, s)
    requires Run(Next(w, s), others).Some? && OnlyOthers(others, s.run)
    ensures var m := Run(Next(w, s), others).value;
            var t := Run(w, [s] + others + [CreateLands(s.run)]);
            && t.Some? && |t.value.runs| == |w.runs| && w.changes <= m.changes
            && (NobodyWrote(m.changes[|w.changes|..]) ==> m.store.lock.None?)
            && (m.store.lock.None? ==> Live(t.value.runs[s.run]) && HeldBy(t.value.store, s.run))
            && (m.store.lock.Some? ==> t.value.runs[s.run].Looking? && t.value.store == m.store)
  {
    var n := Next(w, s);
    assert n.runs[s.run] == Creating(w.now) && n.changes == w.changes && n.store == w.store;
    NextKeepsShape(w, s);
    OthersLeaveARunAlone(n, others, s.run);
    var m := Run(n, others).value;
    var c := CreateLands(s.run);
    assert CanStep(m, c);
    var t := Next(m, c);
    assert m.store.lock.None? ==> Live(t.runs[s.run]) && HeldBy(t.store, s.run);
    assert m.store.lock.Some? ==> t.runs[s.run].Looking? && t.store == m.store;
    NextKeepsShape(m, c);
    hide Next, CanStep, FindsNone;
    assert ([s] + others + [c])[1..] == others + [c];
    RunJoins(n, others, [c]);
    assert [c][1..] == [];
    assert Run(t, []) == Some(t);
  }

  /** Its lease can be read and was not renewed for longer than the TTL, by this clock. */
  predicate LooksOld(seen: Lock, clock: int) { seen.lease.Some? && seen.lease.value.stamp + LEASE_TTL < clock }

  /** Nobody sets out to steal a lock but for one of two reasons: at its first
      look the lease was readable and expired, or it watched the lock for the
      observe window and has not seen it change. A lock that cannot be read is
      watched. */
  lemma StealingHasAReason(w: World, s: Step, run: Token)
    requires |w.clocks| == |w.runs| && run < |w.runs| && CanStep(w, s)
    requires !w.runs[run].Stealing?
    ensures |Next(w, s).runs| == |w.runs|
    ensures Next(w, s).runs[run].Stealing? <==>
              || (s == Look(run) && w.store.lock.Some? && LooksOld(w.store.lock.value, w.now + w.clocks[run]))
              || (s.Poll? && s.run == run && w.now >= w.runs[run].since + w.observe
                  && (s.readable ==> Unchanged(w.store, w.runs[run].seen)))
    ensures s == Look(run) && w.store.lock.Some? && !LooksOld(w.store.lock.value, w.now + w.clocks[run]) ==>
              Next(w, s).runs[run] == Watching(w.store.lock.value, w.now)
  {
  }

  /** A lock that looks expired at the first look is stolen at once: the run
      gets it exactly when the lock is still that one when its write lands. */
  lemma ExpiredLockIsTaken(w: World, run: Token, others: seq<Step>)
    requires |w.clocks| == |w.runs| && run < |w.runs| && w.runs[run].Looking? && w.store.lock.Some?
    requires LooksOld(w.store.lock.value, w.now + w.clocks[run])
    requires Run(Next(w, Look(run)), others).Some? && OnlyOthers(others, run)
    ensures var m := Run(Next(w, Look(run)), others).value;
            var t := Run(w, [Look(run)] + others + [StealLands(run)]);
            && t.Some? && |t.value.runs| == |w.runs|
            && (Unchanged(m.store, w.store.lock.value) ==> Live(t.value.runs[run]) && HeldBy(t.value.store, run))
            && (!Unchanged(m.store, w.store.lock.value) ==> t.value.runs[run].Busy? && t.value.store == m.store)
  {
    var s := Look(run);
    var n := Next(w, s);
    var seen := w.store.lock.value;
    assert n.runs[run] == Stealing(seen, w.now) && n.changes == w.changes && n.store == w.store;
    NextKeepsShape(w, s);
    OthersLeaveARunAlone(n, others, run);
    var m := Run(n, others).value;
    var c := StealLands(run);
    assert CanStep(m, c) && CanStep(w, s);
    var t := Next(m, c);
    assert Unchanged(m.store, seen) ==> Live(t.runs[run]) && HeldBy(t.store, run);
    assert !Unchanged(m.store, seen) ==> t.runs[run].Busy? && t.store == m.store;
    NextKeepsShape(m, c);
    hide Next, CanStep, Age, Unchanged;
    assert ([s] + others + [c])[1..] == others + [c];
    RunJoins(n, others, [c]);
    assert [c][1..] == [];
    assert Run(t, []) == Some(t);
  }

  /** A live lease refuses who watches it: once the holder has renewed it, the
      next readable poll ends the watch. */
  lemma RenewalRefusesTheWatcher(w: World, holder: Token, watcher: Token)
    requires Inv(w) && holder < |w.runs| && watcher < |w.runs|
    requires w.runs[holder].Renewing? && w.runs[watcher].Watching?
    requires w.store.lock == Some(w.runs[holder].seen)
    ensures var t := Run(w, [RenewLands(holder), Poll(watcher, true)]);
            t.Some? && |t.value.runs| == |w.runs| && t.value.runs[watcher].Busy? && Live(t.value.runs[holder])
            && HeldBy(t.value.store, holder)
  {
    assert PhaseOk(w.store, watcher, w.runs[watcher], w.clocks[watcher]);
    RunOfTwo(w, RenewLands(holder), Poll(watcher, true), []);
    assert [RenewLands(holder), Poll(watcher, true)] + [] == [RenewLands(holder), Poll(watcher, true)];
  }

  /** A renewal that could not be written is tried again: the lease is not lost. */
  lemma FailedRenewalIsTriedAgain(w: World, run: Token)
    requires Inv(w) && run < |w.runs| && w.runs[run].Renewing? && HeldBy(w.store, run)
    ensures var t := Run(w, [RenewFails(run), RenewReads(run), RenewLands(run)]);
            && t.Some? && |t.value.runs| == |w.runs| && Live(t.value.runs[run]) && HeldBy(t.value.store, run)
            && |t.value.changes| == |w.changes| + 1 && t.value.store.next == w.store.next + 1
  {
    assert PhaseOk(w.store, run, w.runs[run], w.clocks[run]);
    var a := Next(w, RenewFails(run));
    var b := Next(a, RenewReads(run));
    var c := Next(b, RenewLands(run));
    RunOfTwo(w, RenewFails(run), RenewReads(run), [RenewLands(run)]);
    assert [RenewFails(run), RenewReads(run)] + [RenewLands(run)] == [RenewFails(run), RenewReads(run), RenewLands(run)];
    assert [RenewLands(run)][1..] == [] && Run(c, []) == Some(c);
  }

  /** A run that crashed, wherever it was, changes nothing from then on. */
  lemma CrashedChangesNothing(w: World, run: Token, steps: seq<Step>)
    requires Inv(w) && run < |w.runs|
    requires |Next(w, Crash(run)).clocks| == |Next(w, Crash(run)).runs| && Run(Next(w, Crash(run)), steps).Some?
    ensures var c := Run(Next(w, Crash(run)), steps).value.changes;
            w.changes <= c && Untouched(c[|w.changes|..], run)
  {
    StepKeeps(w, Crash(run));
    NeverWritesAgain(Next(w, Crash(run)), steps, run);
  }

  /** A release of one's own lock takes it away, for the next run to create;
      where the remove fails it is left for its lease to run out. */
  lemma ReleaseFreesTheLock(w: World, run: Token)
    requires |w.clocks| == |w.runs| && run < |w.runs| && (w.runs[run].Holding? || w.runs[run].Lost?)
    ensures var t := Run(w, [ReleaseReads(run)]);
            && t.Some? && |t.value.clocks| == |t.value.runs| == |w.runs|
            && (HeldBy(w.store, run) ==>
                  var u := Run(w, [ReleaseReads(run), RemoveLands(run)]);
                  u.Some? && |u.value.runs| == |w.runs| && u.value.store.lock.None? && u.value.runs[run].Released?)
            && (HeldBy(w.store, run) ==>
                  var u := Run(w, [ReleaseReads(run), RemoveFails(run)]);
                  u.Some? && |u.value.runs| == |w.runs| && u.value.store == w.store && u.value.runs[run].Released?)
            && (!HeldBy(w.store, run) ==> t.value.runs[run].Released? && t.value.store == w.store && t.value.changes == w.changes)
  {
    var n := Next(w, ReleaseReads(run));
    assert [ReleaseReads(run)][1..] == [] && Run(n, []) == Some(n);
    if HeldBy(w.store, run) {
      RunOfTwo(w, ReleaseReads(run), RemoveLands(run), []);
      assert [ReleaseReads(run), RemoveLands(run)] + [] == [ReleaseReads(run), RemoveLands(run)];
      RunOfTwo(w, ReleaseReads(run), RemoveFails(run), []);
      assert [ReleaseReads(run), RemoveFails(run)] + [] == [ReleaseReads(run), RemoveFails(run)];
    }
  }
}
