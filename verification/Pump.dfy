/**
 The pump (crates/loadsmith-core/src/pump.rs, `pump`): copies the producer's
 stream to the destination until it ends, and leaves the destination's stream
 open, without an end marker.
 */
module Pump {
  type Batch = int

  /** How the producer's stream ends: with its marker, cut off, or unreadable. */
  datatype StreamEnd = Marker | Truncated | Unreadable

  datatype Outcome = Outcome(read: nat, clean: bool, readError: bool, open: bool)

  /** How many leading batches reach the destination: up to the first failed
      write, or until the run is aborted (`abortAt` batches in). */
  function Forwarded(n: nat, writerOpens: bool, writes: nat -> bool, abortAt: nat): (k: nat)
    ensures k <= n && k <= abortAt && (writerOpens ==> forall i :: 0 <= i < k ==> writes(i))
    ensures writerOpens && k < n && k < abortAt ==> !writes(k)
    ensures !writerOpens ==> k == 0
  {
    if n == 0 || !writerOpens then 0
    else
      var before := Forwarded(n - 1, writerOpens, writes, abortAt);
      if before == n - 1 && n - 1 < abortAt && writes(n - 1) then n else before
  }

  lemma ForwardedStep(n: nat, writerOpens: bool, writes: nat -> bool, abortAt: nat)
    ensures Forwarded(n + 1, writerOpens, writes, abortAt)
            == if writerOpens && Forwarded(n, writerOpens, writes, abortAt) == n && n < abortAt && writes(n) then n + 1
               else Forwarded(n, writerOpens, writes, abortAt)
  {
  }

  /** Increasing, and the last one is the total. */
  predicate Ticks(reported: seq<nat>, total: nat) {
    && (forall i, j :: 0 <= i < j < |reported| ==> reported[i] < reported[j])
    && (if total == 0 then reported == [] else reported != [] && reported[|reported| - 1] == total)
  }

  function Pow2(k: nat): (p: nat)
    ensures p > k
  {
    if k == 0 then 1 else 2 * Pow2(k - 1)
  }

  /** Every batch is read even when the destination is gone; what reaches it is
      a prefix of what was read, and all of it when its stream is still open
      and the run was not aborted. Progress is reported at 1, 2, 4, 8, … batches
      and once more at the end when that is not one of them. */
  method CopyStream(batches: seq<Batch>, end: StreamEnd, writerOpens: bool, writes: nat -> bool, abortAt: nat)
    returns (outcome: Outcome, written: seq<Batch>, reported: seq<nat>)
    ensures outcome.read == |batches|
    ensures outcome.clean <==> end.Marker?
    ensures outcome.readError <==> end.Unreadable?
    ensures written == batches[..Forwarded(|batches|, writerOpens, writes, abortAt)]
    ensures outcome.open <==> writerOpens && forall k :: 0 <= k < |batches| && k < abortAt ==> writes(k)
    ensures outcome.open && |batches| <= abortAt ==> written == batches
    ensures Ticks(reported, |batches|)
  {
    hide Forwarded, Ticks, Pow2;
    var writer := new Writer(writerOpens);
    assert Forwarded(0, writerOpens, writes, abortAt) == 0;
    var progress := new Progress();
    var read := 0;
    while read < |batches|
      invariant read <= |batches| && fresh(progress) && progress.Valid(read)
      invariant fresh(writer) && writer.Valid(batches, read, writerOpens, writes, abortAt)
    {
      if abortAt > read {
        writer.Write(batches, read, writerOpens, writes, abortAt);
      } else {
        writer.Skip(batches, read, writerOpens, writes, abortAt);
      }
      read := read + 1;
      progress.Tick(read);
    }
    progress.Last(read);
    outcome := Outcome(read, end.Marker?, end.Unreadable?, writer.open);
    written, reported := writer.written, progress.reported;
  }

  /** The destination's stream; closed by its first failed write. */
  class Writer {
    var open: bool
    var written: seq<Batch>

    ghost predicate Valid(batches: seq<Batch>, read: nat, opens: bool, writes: nat -> bool, abortAt: nat)
      reads this
    {
      && read <= |batches|
      && written == batches[..Forwarded(read, opens, writes, abortAt)]
      && (open <==> opens && forall k :: 0 <= k < read && k < abortAt ==> writes(k))
      && (open && read <= abortAt ==> |written| == read)
      && (!open && opens ==> |written| < read)
    }

    constructor (opens: bool)
      ensures open == opens && written == []
    {
      open, written := opens, [];
    }

    method Write(batches: seq<Batch>, read: nat, opens: bool, writes: nat -> bool, abortAt: nat)
      requires read < |batches| && read < abortAt && Valid(batches, read, opens, writes, abortAt)
      modifies this
      ensures Valid(batches, read + 1, opens, writes, abortAt)
    {
      hide Forwarded;
      ForwardedStep(read, opens, writes, abortAt);
      if open {
        if writes(read) {
          written := written + [batches[read]];
        } else {
          open := false;
        }
      }
    }

    /** Aborted: the batch is read and dropped. */
    method Skip(batches: seq<Batch>, read: nat, opens: bool, writes: nat -> bool, abortAt: nat)
      requires read < |batches| && abortAt <= read && Valid(batches, read, opens, writes, abortAt)
      modifies this
      ensures Valid(batches, read + 1, opens, writes, abortAt)
    {
      hide Forwarded;
      ForwardedStep(read, opens, writes, abortAt);
    }
  }

  /** What was reported, and the next power of two at which to report. */
  class Progress {
    var nextLog: nat
    var reported: seq<nat>
    ghost var exponent: nat

    ghost predicate Valid(read: nat)
      reads this
    {
      && nextLog == Pow2(exponent) && read < nextLog
      && (forall i, j :: 0 <= i < j < |reported| ==> reported[i] < reported[j])
      && if exponent == 0 then reported == [] && read == 0
         else reported != [] && reported[|reported| - 1] == Pow2(exponent - 1) <= read
    }

    constructor ()
      ensures Valid(0)
    {
      nextLog, reported, exponent := 1, [], 0;
    }

    method Tick(read: nat)
      requires read > 0 && Valid(read - 1)
      modifies this
      ensures Valid(read)
      ensures reported == old(reported) + if read == old(nextLog) then [read] else []
    {
      if read == nextLog {
        reported := reported + [read];
        nextLog := nextLog * 2;
        exponent := exponent + 1;
      }
    }

    /** The total is reported unless it just was. */
    method Last(read: nat)
      requires Valid(read)
      modifies this
      ensures Ticks(reported, read)
    {
      if read > 0 && read != nextLog / 2 {
        reported := reported + [read];
      }
    }
  }
}
