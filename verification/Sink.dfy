/**
 The delivery loop of a sink (crates/loadsmith-plugin-sdk/src/sink.rs,
 `drive_sink`): objects are queued as they are handed over, also while one is
 being delivered, and delivered one at a time.
 */
module Sink {
  type Path = nat

  datatype Ending =
    | Success
    | DeliverFailed(path: Path)
    | FinalizeFailed
    /** The core never closed the input: the sink waits for more. */
    | Waiting

  /** The objects handed over and not yet delivered, and whether the input ended. */
  class Queue {
    var waiting: seq<Path>
    var inputDone: bool
    /** How many lines of the input were read. */
    var read: nat
    /** How many objects were taken out. */
    ghost var taken: nat

    ghost predicate Valid(lines: seq<Path>, closes: bool)
      reads this
    {
      && taken <= read <= |lines| && waiting == lines[taken..read]
      && (inputDone ==> closes && read == |lines|)
    }

    constructor ()
      ensures forall lines, closes :: Valid(lines, closes)
      ensures waiting == [] && !inputDone && read == 0 && taken == 0
    {
      waiting, inputDone, read, taken := [], false, 0, 0;
    }

    /** The next line of the input, or its end; nothing if there is none yet. */
    method Read(lines: seq<Path>, closes: bool)
      requires Valid(lines, closes) && !inputDone
      modifies this
      ensures Valid(lines, closes) && taken == old(taken)
      ensures old(read) < |lines| ==> read == old(read) + 1 && !inputDone
      ensures old(read) == |lines| ==> read == old(read) && (inputDone <==> closes)
    {
      if read < |lines| {
        waiting := waiting + [lines[read]];
        read := read + 1;
      } else {
        inputDone := closes;
      }
    }

    method Pop(lines: seq<Path>, closes: bool) returns (path: Path)
      requires Valid(lines, closes) && waiting != []
      modifies this`waiting, this`taken
      ensures Valid(lines, closes) && taken == old(taken) + 1
      ensures path == lines[old(taken)]
    {
      path := waiting[0];
      waiting := waiting[1..];
      taken := taken + 1;
    }
  }

  /** What is read while an object is being delivered. */
  method ReadMeanwhile(queue: Queue, lines: seq<Path>, closes: bool, arrivals: nat)
    requires queue.Valid(lines, closes)
    modifies queue
    ensures queue.Valid(lines, closes) && queue.taken == old(queue.taken)
  {
    var left := arrivals;
    while left > 0 && !queue.inputDone
      invariant queue.Valid(lines, closes) && queue.taken == old(queue.taken)
    {
      queue.Read(lines, closes);
      left := left - 1;
    }
  }

  /** The loop. Every object handed over is delivered and acknowledged, in the
      order it was handed over; success is reported only after the input ended
      and nothing was left to deliver. */
  method DriveSink(lines: seq<Path>, closes: bool, arrivals: nat -> nat, delivers: nat -> bool, finalizes: bool)
    returns (ending: Ending, acked: seq<Path>)
    ensures acked <= lines
    ensures ending.Success? <==> closes && finalizes && forall k :: 0 <= k < |lines| ==> delivers(k)
    ensures ending.Success? || ending.FinalizeFailed? || ending.Waiting? ==> acked == lines
    ensures ending.Waiting? ==> !closes
    ensures ending.DeliverFailed? ==> |acked| < |lines| && lines[|acked|] == ending.path && !delivers(|acked|)
  {
    var queue := new Queue();
    acked := [];
    while queue.waiting != [] || !queue.inputDone
      invariant queue.Valid(lines, closes) && fresh(queue)
      invariant acked == lines[..queue.taken]
      invariant forall k :: 0 <= k < queue.taken ==> delivers(k)
      decreases |lines| - queue.taken, |lines| - queue.read, !queue.inputDone
    {
      if queue.waiting == [] {
        if queue.read == |lines| && !closes {
          return Waiting, acked;
        }
        queue.Read(lines, closes);
      } else {
        var path := queue.Pop(lines, closes);
        ReadMeanwhile(queue, lines, closes, arrivals(|acked|));
        if !delivers(|acked|) {
          return DeliverFailed(path), acked;
        }
        acked := acked + [path];
      }
    }
    ending := if finalizes then Success else FinalizeFailed;
  }
}
