/**
 The data loop of a destination (crates/loadsmith-plugin-sdk/src/destination.rs,
 `drive_destination`): what it writes, announces and reports as durable.
 */
module Destination {
  import opened Wrappers
  import opened SinkLedger

  type Batch = int
  datatype DataEvent = Row(batch: Batch) | End(clean: bool) | ReadFailed

  /** What the plugin answers at its k-th batch (counted from 1) and at the end. */
  datatype Plugin = Plugin(writes: nat -> bool, ready: nat -> seq<StagedObject>, durable: nat -> Option<nat>,
                           finalizes: bool, last: seq<StagedObject>)

  /** What the core is told, in order. */
  datatype Told = Ready(staged: StagedObject) | Committed(through: nat)

  datatype Ending = Success | WriteFailed | InputTruncated | IpcReadFailed | FinalizeFailed

  function Announce(files: seq<StagedObject>): (r: seq<Told>)
    ensures |r| == |files| && forall i :: 0 <= i < |r| ==> r[i] == Ready(files[i])
  {
    seq(|files|, i requires 0 <= i < |files| => Ready(files[i]))
  }

  /** The batches at the head of the stream. */
  function Leading(events: seq<DataEvent>): (n: nat)
    ensures n <= |events| && (forall i :: 0 <= i < n ==> events[i].Row?) && (n < |events| ==> !events[n].Row?)
    decreases |events|
  {
    if events != [] && events[0].Row? then 1 + Leading(events[1..]) else 0
  }

  function BatchesOf(events: seq<DataEvent>, n: nat): (r: seq<Batch>)
    requires n <= Leading(events)
    ensures |r| == n && forall i :: 0 <= i < n ==> r[i] == events[i].batch
  {
    seq(n, i requires 0 <= i < n => events[i].batch)
  }

  /** The highest batch reported durable after `n` batches. */
  function CommittedAfter(p: Plugin, n: nat): nat {
    if n == 0 then 0
    else
      var before := CommittedAfter(p, n - 1);
      if p.durable(n).Some? && p.durable(n).value > before then p.durable(n).value else before
  }

  function ToldAfter(p: Plugin, n: nat): seq<Told> {
    if n == 0 then []
    else
      ToldAfter(p, n - 1) + Announce(p.ready(n))
      + if CommittedAfter(p, n) > CommittedAfter(p, n - 1) then [Committed(CommittedAfter(p, n))] else []
  }

  function ToldAtEnd(p: Plugin, n: nat): seq<Told> {
    ToldAfter(p, n) + Announce(p.last) + if n > CommittedAfter(p, n) then [Committed(n)] else []
  }

  /** The loop. It finalizes only after the end marker, with every batch before
      it written, in order; anything else fails without finalizing. */
  method DriveDestination(p: Plugin, events: seq<DataEvent>)
    returns (ending: Ending, written: seq<Batch>, finalized: bool, told: seq<Told>)
    ensures var n := Leading(events);
            ending.Success? <==> n < |events| && events[n] == End(true) && (forall k :: 1 <= k <= n ==> p.writes(k)) && p.finalizes
    ensures ending.Success? ==> finalized && written == BatchesOf(events, Leading(events))
                                && told == ToldAtEnd(p, Leading(events))
    ensures finalized <==> ending.Success?
    ensures |written| <= Leading(events) && written == BatchesOf(events, |written|)
    ensures !ending.Success? ==> told == ToldAfter(p, |written|)
    ensures ending.InputTruncated? ==> Leading(events) < |events| && events[Leading(events)] == End(false)
  {
    var total, committed, i := 0, 0, 0;
    written, told, finalized := [], [], false;
    while i < |events| && events[i].Row?
      invariant i <= Leading(events) && total == i
      invariant written == BatchesOf(events, i) && told == ToldAfter(p, i) && committed == CommittedAfter(p, i)
      invariant forall k :: 1 <= k <= i ==> p.writes(k)
    {
      total := total + 1;
      if !p.writes(total) {
        return WriteFailed, written, false, told;
      }
      written := written + [events[i].batch];
      told := told + Announce(p.ready(total));
      if p.durable(total).Some? && p.durable(total).value > committed {
        committed := p.durable(total).value;
        told := told + [Committed(committed)];
      }
      i := i + 1;
    }
    if i == |events| || events[i] == ReadFailed {
      return IpcReadFailed, written, false, told;
    }
    if !events[i].clean {
      return InputTruncated, written, false, told;
    }
    if !p.finalizes {
      return FinalizeFailed, written, false, told;
    }
    told := told + Announce(p.last);
    if total > committed {
      told := told + [Committed(total)];
    }
    return Success, written, true, told;
  }

  // ----- what the core may rely on ------------------------------------------

  /** A file holding batch `b` was announced within the first `j` messages. */
  predicate AnnouncedBy(told: seq<Told>, j: nat, b: nat)
    requires j <= |told|
  {
    exists i :: 0 <= i < j && told[i].Ready? && Holds(told[i].staged, b)
  }

  predicate Holds(file: StagedObject, b: nat) {
    file.batches.Some? && file.batches.value.first <= b <= file.batches.value.last
  }

  predicate HandedOut(p: Plugin, k: nat, b: nat) {
    exists m, i :: 1 <= m <= k && 0 <= i < |p.ready(m)| && Holds(p.ready(m)[i], b)
  }

  /** A staging plugin calls a batch durable only once its file is ready, and
      at the end every batch is in a file. */
  ghost predicate Honest(p: Plugin, n: nat) {
    && HonestSoFar(p, n)
    && (forall b :: 1 <= b <= n ==> HandedOut(p, n, b) || exists i :: 0 <= i < |p.last| && Holds(p.last[i], b))
  }

  ghost predicate HonestSoFar(p: Plugin, n: nat) {
    forall k, b :: 1 <= k <= n && p.durable(k).Some? && 1 <= b <= p.durable(k).value ==> HandedOut(p, k, b)
  }

  /** What was handed out by batch `n` was announced by then. */
  lemma {:induction false} HandedOutIsAnnounced(p: Plugin, n: nat, b: nat)
    requires HandedOut(p, n, b)
    ensures AnnouncedBy(ToldAfter(p, n), |ToldAfter(p, n)|, b)
  {
    var m, i :| 1 <= m <= n && 0 <= i < |p.ready(m)| && Holds(p.ready(m)[i], b);
    var before := ToldAfter(p, n - 1);
    if m == n {
      assert ToldAfter(p, n)[|before| + i] == Ready(p.ready(n)[i]);
    } else {
      assert HandedOut(p, n - 1, b);
      HandedOutIsAnnounced(p, n - 1, b);
      var x :| 0 <= x < |before| && before[x].Ready? && Holds(before[x].staged, b);
      assert ToldAfter(p, n)[x] == before[x];
    }
  }

  lemma AnnouncedStays(a: seq<Told>, rest: seq<Told>, j: nat, b: nat)
    requires j <= |a|
    ensures AnnouncedBy(a, j, b) == AnnouncedBy(a + rest, j, b)
  {
    if AnnouncedBy(a, j, b) {
      var i :| 0 <= i < j && a[i].Ready? && Holds(a[i].staged, b);
      assert (a + rest)[i] == a[i];
    }
    if AnnouncedBy(a + rest, j, b) {
      var i :| 0 <= i < j && (a + rest)[i].Ready? && Holds((a + rest)[i].staged, b);
      assert a[i] == (a + rest)[i];
    }
  }

  /** Mid-run: every batch a `committed` covers is in a file announced before it. */
  lemma {:induction false} CommittedIsAnnounced(p: Plugin, n: nat, j: nat, b: nat)
    requires HonestSoFar(p, n)
    requires j < |ToldAfter(p, n)| && ToldAfter(p, n)[j].Committed? && 1 <= b <= ToldAfter(p, n)[j].through
    ensures AnnouncedBy(ToldAfter(p, n), j, b)
  {
    var before, told := ToldAfter(p, n - 1), ToldAfter(p, n);
    if j < |before| {
      CommittedIsAnnounced(p, n - 1, j, b);
      assert told == before + told[|before|..];
      AnnouncedStays(before, told[|before|..], j, b);
    } else {
      assert told[j] == Committed(p.durable(n).value);
      HandedOutIsAnnounced(p, n, b);
      var i :| 0 <= i < |told| && told[i].Ready? && Holds(told[i].staged, b);
      assert i < j;
    }
  }

  /** Over a whole successful run: `committed(n)` comes only after the files
      holding 1..n were announced. */
  lemma CommittedOnlyAfterAnnounced(p: Plugin, n: nat, j: nat, b: nat)
    requires Honest(p, n)
    requires j < |ToldAtEnd(p, n)| && ToldAtEnd(p, n)[j].Committed? && 1 <= b <= ToldAtEnd(p, n)[j].through
    ensures AnnouncedBy(ToldAtEnd(p, n), j, b)
  {
    var before, told := ToldAfter(p, n), ToldAtEnd(p, n);
    assert told == before + told[|before|..];
    if j < |before| {
      CommittedIsAnnounced(p, n, j, b);
      AnnouncedStays(before, told[|before|..], j, b);
    } else if HandedOut(p, n, b) {
      HandedOutIsAnnounced(p, n, b);
      var i :| 0 <= i < |before| && before[i].Ready? && Holds(before[i].staged, b);
      assert told[i] == before[i];
    } else {
      assert told[j] == Committed(n);
      var i :| 0 <= i < |p.last| && Holds(p.last[i], b);
      assert told[|before| + i] == Ready(p.last[i]);
    }
  }

  lemma {:induction false} CommittedRises(p: Plugin, k: nat, n: nat)
    requires k <= n
    ensures CommittedAfter(p, k) <= CommittedAfter(p, n)
  {
    if k < n { CommittedRises(p, k, n - 1); }
  }

  lemma {:induction false} CommitsIncreaseSoFar(p: Plugin, n: nat, i: nat, j: nat)
    requires i < j < |ToldAfter(p, n)| && ToldAfter(p, n)[i].Committed? && ToldAfter(p, n)[j].Committed?
    ensures ToldAfter(p, n)[i].through < ToldAfter(p, n)[j].through <= CommittedAfter(p, n)
  {
    var before, told := ToldAfter(p, n - 1), ToldAfter(p, n);
    if j < |before| {
      CommitsIncreaseSoFar(p, n - 1, i, j);
    } else {
      assert told[j] == Committed(CommittedAfter(p, n));
      assert told[i] == before[i];
      CommitIsReached(p, n - 1, i);
    }
  }

  /** Commits strictly increase over a whole run, the closing one included. */
  lemma CommitsIncrease(p: Plugin, n: nat, i: nat, j: nat)
    requires i < j < |ToldAtEnd(p, n)| && ToldAtEnd(p, n)[i].Committed? && ToldAtEnd(p, n)[j].Committed?
    ensures ToldAtEnd(p, n)[i].through < ToldAtEnd(p, n)[j].through
  {
    var before, told := ToldAfter(p, n), ToldAtEnd(p, n);
    assert told == before + told[|before|..];
    assert i < |before|;
    if j < |before| {
      CommitsIncreaseSoFar(p, n, i, j);
    } else {
      CommitIsReached(p, n, i);
    }
  }

  lemma {:induction false} CommitIsReached(p: Plugin, n: nat, i: nat)
    requires i < |ToldAfter(p, n)| && ToldAfter(p, n)[i].Committed?
    ensures ToldAfter(p, n)[i].through <= CommittedAfter(p, n)
  {
    if i < |ToldAfter(p, n - 1)| { CommitIsReached(p, n - 1, i); }
  }

  /** After a success the last commit covers every batch. */
  lemma SuccessCommitsEverything(p: Plugin, n: nat)
    requires n > 0
    ensures exists j :: 0 <= j < |ToldAtEnd(p, n)| && ToldAtEnd(p, n)[j].Committed? && ToldAtEnd(p, n)[j].through >= n
                        && forall k :: j < k < |ToldAtEnd(p, n)| ==> !ToldAtEnd(p, n)[k].Committed?
  {
    var before, told := ToldAfter(p, n), ToldAtEnd(p, n);
    if n > CommittedAfter(p, n) {
      assert told[|told| - 1] == Committed(n);
    } else {
      var j := WhereCommitted(p, n);
      assert told[j] == before[j];
      forall k | j < k < |told| ensures !told[k].Committed? {
        if k < |before| && before[k].Committed? {
          CommitsIncreaseSoFar(p, n, j, k);
        }
      }
    }
  }

  lemma {:induction false} WhereCommitted(p: Plugin, n: nat) returns (j: nat)
    requires CommittedAfter(p, n) > 0
    ensures j < |ToldAfter(p, n)| && ToldAfter(p, n)[j] == Committed(CommittedAfter(p, n))
  {
    if CommittedAfter(p, n) > CommittedAfter(p, n - 1) {
      j := |ToldAfter(p, n)| - 1;
    } else {
      j := WhereCommitted(p, n - 1);
    }
  }
}
