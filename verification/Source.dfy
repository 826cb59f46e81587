/**
 The checkpoints a source sends (crates/loadsmith-plugin-sdk/src/source.rs,
 `Reported`): one whenever the watermark or the resume token moved, each
 carrying the newest of both.
 */
module Source {
  import opened Wrappers

  /** A cursor value: opaque to the core, ordered for the source. */
  type Cursor = int
  /** A resume token: opaque to everyone but its source. */
  type Token = int

  /** Through batch `batchSeq`: the watermark (`None` is the protocol's null)
      and the resume token. */
  datatype Checkpoint = Checkpoint(batchSeq: nat, cursor: Option<Cursor>, token: Option<Token>)

  /** The newest value present in a history of reports. */
  function Newest<T>(history: seq<Option<T>>): Option<T> {
    if history == [] then None
    else if history[|history| - 1].Some? then history[|history| - 1]
    else Newest(history[..|history| - 1])
  }

  class Reported {
    var watermark: Option<Cursor>
    var token: Option<Token>
    /** What the source said after each batch, oldest first. */
    ghost var watermarks: seq<Option<Cursor>>
    ghost var tokens: seq<Option<Token>>

    ghost predicate Valid()
      reads this
    {
      watermark == Newest(watermarks) && token == Newest(tokens)
    }

    constructor ()
      ensures Valid() && watermarks == [] && tokens == []
    {
      watermark, token, watermarks, tokens := None, None, [], [];
    }

    /** A checkpoint is sent exactly when the newest watermark or the newest
        token changed, and it carries the newest of each. */
    method Report(batchSeq: nat, w: Option<Cursor>, t: Option<Token>) returns (sent: Option<Checkpoint>)
      requires Valid()
      modifies this
      ensures Valid() && watermarks == old(watermarks) + [w] && tokens == old(tokens) + [t]
      ensures sent.Some? <==>
                Newest(watermarks) != Newest(old(watermarks)) || Newest(tokens) != Newest(old(tokens))
      ensures sent.Some? ==> sent.value == Checkpoint(batchSeq, Newest(watermarks), Newest(tokens))
    {
      watermarks, tokens := watermarks + [w], tokens + [t];
      var changed := (w.Some? && w != watermark) || (t.Some? && t != token);
      if !changed {
        return None;
      }
      watermark := if w.Some? then w else watermark;
      token := if t.Some? then t else token;
      sent := Some(Checkpoint(batchSeq, watermark, token));
    }
  }

  // ----- the data loop ------------------------------------------------------------

  type Batch = int

  /** What a source plugin answers: after batch k (counted from 1) its watermark
      and token, and once more when its stream is over; `fails`: an error
      instead of that end. */
  datatype Plugin = Plugin(batches: seq<Batch>, watermark: nat -> Option<Cursor>, token: nat -> Option<Token>,
                           fails: bool, lastWatermark: Option<Cursor>, lastToken: Option<Token>)

  function Answers<T>(answer: nat -> Option<T>, n: nat): (r: seq<Option<T>>)
    ensures |r| == n
  {
    if n == 0 then [] else Answers(answer, n - 1) + [answer(n)]
  }

  /** One more report: sent when it changes the newest watermark or token. */
  function Reports(sent: seq<Checkpoint>, ws: seq<Option<Cursor>>, ts: seq<Option<Token>>,
                   batchSeq: nat, w: Option<Cursor>, t: Option<Token>): seq<Checkpoint>
  {
    if Newest(ws + [w]) != Newest(ws) || Newest(ts + [t]) != Newest(ts)
    then sent + [Checkpoint(batchSeq, Newest(ws + [w]), Newest(ts + [t]))]
    else sent
  }

  /** The checkpoints of the first `n` batches. */
  function SentAfter(p: Plugin, n: nat): seq<Checkpoint> {
    if n == 0 then []
    else Reports(SentAfter(p, n - 1), Answers(p.watermark, n - 1), Answers(p.token, n - 1), n, p.watermark(n), p.token(n))
  }

  function SentAtEnd(p: Plugin): seq<Checkpoint> {
    var n := |p.batches|;
    if p.fails || n == 0 then SentAfter(p, n)
    else Reports(SentAfter(p, n), Answers(p.watermark, n), Answers(p.token, n), n, p.lastWatermark, p.lastToken)
  }

  /** What the loop depends on besides the plugin: whether batch k is asked for
      at all (the core granted it, and neither cancelled nor went away), whether
      the writer's thread took it, and whether that thread ended well and wrote
      the end marker. */
  datatype Surroundings = Surroundings(proceeds: nat -> bool, accepts: nat -> bool, finishes: bool)

  /** How many batches are handed to the writer, `k` of them so far. */
  function Handed(p: Plugin, around: Surroundings, k: nat): (n: nat)
    requires k <= |p.batches|
    ensures k <= n <= |p.batches|
    ensures forall i :: k < i <= n ==> around.proceeds(i) && around.accepts(i)
    ensures n < |p.batches| ==> !around.proceeds(n + 1) || !around.accepts(n + 1)
    decreases |p.batches| - k
  {
    if k < |p.batches| && around.proceeds(k + 1) && around.accepts(k + 1) then Handed(p, around, k + 1) else k
  }

  /** The plugin was asked once more, and said that its stream is over. */
  predicate StreamEnds(p: Plugin, around: Surroundings) {
    Handed(p, around, 0) == |p.batches| && around.proceeds(|p.batches| + 1) && !p.fails
  }

  lemma SentOneMore(p: Plugin, n: nat)
    ensures SentAfter(p, n + 1)
            == Reports(SentAfter(p, n), Answers(p.watermark, n), Answers(p.token, n), n + 1, p.watermark(n + 1), p.token(n + 1))
    ensures Answers(p.watermark, n + 1) == Answers(p.watermark, n) + [p.watermark(n + 1)]
    ensures Answers(p.token, n + 1) == Answers(p.token, n) + [p.token(n + 1)]
  {
  }

  lemma HandedOneMore(p: Plugin, around: Surroundings, k: nat)
    requires k <= |p.batches|
    ensures Handed(p, around, k)
            == if k < |p.batches| && around.proceeds(k + 1) && around.accepts(k + 1) then Handed(p, around, k + 1) else k
  {
  }

  lemma NothingSent(p: Plugin)
    ensures SentAfter(p, 0) == [] && Answers(p.watermark, 0) == [] && Answers(p.token, 0) == []
  {
  }

  /** The loop: each batch is handed to the writer and then reported; the end
      marker is written only when the stream ended without an error, with every
      batch handed over and written. */
  method DriveSource(p: Plugin, around: Surroundings) returns (handed: seq<Batch>, marker: bool, sent: seq<Checkpoint>)
    ensures handed == p.batches[..Handed(p, around, 0)]
    ensures marker <==> StreamEnds(p, around) && around.finishes
    ensures sent == if StreamEnds(p, around) then SentAtEnd(p) else SentAfter(p, |handed|)
  {
    hide SentAfter, Answers, Handed, Newest;
    NothingSent(p);
    var reported := new Reported();
    var total := 0;
    handed, sent, marker := [], [], false;
    while true
      invariant total <= |p.batches| && reported.Valid() && fresh(reported)
      invariant reported.watermarks == Answers(p.watermark, total) && reported.tokens == Answers(p.token, total)
      invariant Handed(p, around, 0) == Handed(p, around, total)
      invariant handed == p.batches[..total] && sent == SentAfter(p, total) && !marker
      decreases |p.batches| - total
    {
      HandedOneMore(p, around, total);
      if !around.proceeds(total + 1) {
        return;
      }
      if total == |p.batches| {
        break;
      }
      if !around.accepts(total + 1) {
        return;
      }
      handed := handed + [p.batches[total]];
      SentOneMore(p, total);
      total := total + 1;
      var checkpoint := reported.Report(total, p.watermark(total), p.token(total));
      if checkpoint.Some? {
        sent := sent + [checkpoint.value];
      }
    }
    if p.fails {
      return;
    }
    if total > 0 {
      var checkpoint := reported.Report(total, p.lastWatermark, p.lastToken);
      if checkpoint.Some? {
        sent := sent + [checkpoint.value];
      }
    }
    marker := around.finishes;
  }

  /** The last checkpoint carries the newest watermark and token of a history. */
  predicate UpToDate(sent: seq<Checkpoint>, ws: seq<Option<Cursor>>, ts: seq<Option<Token>>) {
    if sent == [] then Newest(ws).None? && Newest(ts).None?
    else sent[|sent| - 1].cursor == Newest(ws) && sent[|sent| - 1].token == Newest(ts)
  }

  /** At every moment the last checkpoint sent is the newest the source said:
      nothing that was said is withheld, and nothing is said twice in a row. */
  lemma {:induction false} LastCheckpointIsNewest(p: Plugin, n: nat)
    ensures UpToDate(SentAfter(p, n), Answers(p.watermark, n), Answers(p.token, n))
    ensures forall i :: 0 <= i < |SentAfter(p, n)| ==> 1 <= SentAfter(p, n)[i].batchSeq <= n
    ensures forall i, j :: 0 <= i < j < |SentAfter(p, n)| ==> SentAfter(p, n)[i].batchSeq < SentAfter(p, n)[j].batchSeq
  {
    hide UpToDate, Newest;
    if n == 0 {
      NothingIsUpToDate();
    } else {
      LastCheckpointIsNewest(p, n - 1);
      ReportKeepsUpToDate(SentAfter(p, n - 1), Answers(p.watermark, n - 1), Answers(p.token, n - 1), n, p.watermark(n), p.token(n));
    }
  }

  lemma NothingIsUpToDate()
    ensures UpToDate([], [], [])
  {
  }

  lemma ReportKeepsUpToDate(sent: seq<Checkpoint>, ws: seq<Option<Cursor>>, ts: seq<Option<Token>>,
                            batchSeq: nat, w: Option<Cursor>, t: Option<Token>)
    requires UpToDate(sent, ws, ts)
    ensures UpToDate(Reports(sent, ws, ts, batchSeq, w, t), ws + [w], ts + [t])
  {
    hide Newest;
  }

  /** After a clean end the last checkpoint carries the closing watermark and
      the closing token, or what the source last said instead of one it leaves
      out; what the end adds is at the last batch. Ordinals never go back, and
      only that last one may repeat. */
  lemma ClosingReportIsSent(p: Plugin)
    requires !p.fails && p.batches != []
    ensures var sent, n := SentAtEnd(p), |p.batches|;
            && UpToDate(sent, Answers(p.watermark, n) + [p.lastWatermark], Answers(p.token, n) + [p.lastToken])
            && (p.lastWatermark.Some? ==> sent != [] && sent[|sent| - 1].cursor == p.lastWatermark)
            && (p.lastToken.Some? ==> sent != [] && sent[|sent| - 1].token == p.lastToken)
            && SentAfter(p, n) <= sent && (sent != SentAfter(p, n) ==> sent[|sent| - 1].batchSeq == n)
            && (forall i, j :: 0 <= i < j < |sent| ==> sent[i].batchSeq <= sent[j].batchSeq)
            && (forall i, j :: 0 <= i < j < |sent| - 1 ==> sent[i].batchSeq < sent[j].batchSeq)
  {
    var n := |p.batches|;
    LastCheckpointIsNewest(p, n);
    var ws, ts := Answers(p.watermark, n), Answers(p.token, n);
    ReportKeepsUpToDate(SentAfter(p, n), ws, ts, n, p.lastWatermark, p.lastToken);
    assert p.lastWatermark.Some? ==> Newest(ws + [p.lastWatermark]) == p.lastWatermark;
    assert p.lastToken.Some? ==> Newest(ts + [p.lastToken]) == p.lastToken;
    hide Newest;
  }
}
