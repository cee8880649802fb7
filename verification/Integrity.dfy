/**
  Segmentation and reassembly: the chunks kal_send cuts concatenate to message || SHA-256(message); a complete
  reassembly is accepted exactly when its concatenation has that form and an admissible length; and a message is
  delivered from DATA only then.
 */
module Integrity {
  import opened Bytes
  import opened Wire
  import opened LinkSpec
  import opened Reachable
  import opened Invariant
  import Sha256

  // The first n segments end to end.
  function Concat(segments: seq<seq<byte>>, n: nat): seq<byte>
    requires n <= |segments|
  {
    if n == 0 then [] else Concat(segments, n - 1) + segments[n - 1]
  }

  // ------------------------------------------------------------ segmentation

  function Covered(transfer: seq<byte>, n: nat): (c: nat)
    ensures c <= |transfer|
  {
    if 44 * n < |transfer| then 44 * n else |transfer|
  }

  lemma ChunkExtends(transfer: seq<byte>, n: nat)
    ensures transfer[..Covered(transfer, n)] + Chunk(transfer, n) == transfer[..Covered(transfer, n + 1)]
  {
    if 44 * n < |transfer| {
      var end := Covered(transfer, n + 1);
      assert Chunk(transfer, n) == transfer[44 * n..end];
    }
  }

  lemma {:induction false} ChunksPrefix(transfer: seq<byte>, total: nat, n: nat)
    requires n <= total <= MAX_SEGMENTS
    ensures Concat(Chunks(transfer, total), n) == transfer[..Covered(transfer, n)]
    decreases n
  {
    if n > 0 {
      hide Chunk, Covered;
      ChunksPrefix(transfer, total, n - 1);
      ChunkExtends(transfer, n - 1);
      assert Chunks(transfer, total)[n - 1] == Chunk(transfer, n - 1);
    }
  }

  /** The segments of a transfer concatenate to the message and its digest. */
  lemma SegmentationIsLossless(message: seq<byte>)
    requires |message| <= MAX_MESSAGE_BYTES
    ensures var total := SegmentCount(|message|).value;
            Concat(Chunks(Transfer(message), total), total) == Transfer(message)
  {
    hide Transfer, Chunks, Concat;
    var total := SegmentCount(|message|).value;
    ChunksPrefix(Transfer(message), total, total);
    assert |Transfer(message)| <= 44 * total;
  }

  // ------------------------------------------------------------ reassembly

  lemma {:induction false} ConcatGrows(segments: seq<seq<byte>>, m: nat, n: nat)
    requires m <= n <= |segments|
    ensures |Concat(segments, m)| <= |Concat(segments, n)|
    decreases n
  {
    if m < n { ConcatGrows(segments, m, n - 1); }
  }

  /** The copy loop of finish_rx_message, from segment i on. */
  lemma {:induction false} AssembleIsConcat(rx: Reassembly, i: nat)
    requires ReassemblyShape(rx) && i <= rx.total
    requires forall j | 0 <= j < rx.total :: rx.received[j]
    requires |Concat(rx.segments, i)| <= TRANSFER_MAX_BYTES
    ensures var whole := Concat(rx.segments, rx.total);
            Assemble(rx, i, Concat(rx.segments, i)) == if |whole| <= TRANSFER_MAX_BYTES then Some(whole) else None
    decreases rx.total - i
  {
    if i < rx.total {
      assert Concat(rx.segments, i + 1) == Concat(rx.segments, i) + rx.segments[i];
      ConcatGrows(rx.segments, i + 1, rx.total);
      if |Concat(rx.segments, i + 1)| <= TRANSFER_MAX_BYTES {
        AssembleIsConcat(rx, i + 1);
      }
    }
  }

  lemma {:induction false} ConcatFull(segments: seq<seq<byte>>, n: nat)
    requires n <= |segments|
    requires forall i | 0 <= i < n :: |segments[i]| == PAYLOAD_BYTES
    ensures |Concat(segments, n)| == 44 * n
    decreases n
  {
    if n > 0 { ConcatFull(segments, n - 1); }
  }

  // Every segment is stored once as many are stored as the message has.
  lemma CompleteMeansAll(rx: Reassembly)
    requires Filled(rx) && rx.count == rx.total
    ensures forall i | 0 <= i < rx.total :: rx.received[i] && Fits(rx.segments[i], i, rx.total)
    ensures 44 * (rx.total - 1) < |Concat(rx.segments, rx.total)| <= 44 * rx.total
  {
    CountPrefix(rx.received, rx.total, MAX_SEGMENTS);
    CountFull(rx.received, rx.total);
    assert forall i | 0 <= i < rx.total - 1 :: Fits(rx.segments[i], i, rx.total);
    ConcatFull(rx.segments, rx.total - 1);
    assert Fits(rx.segments[rx.total - 1], rx.total - 1, rx.total);
  }

  // The application message inside a transfer that ends in its own digest.
  function Verified(transfer: seq<byte>, maxMessage: nat): Option<seq<byte>> {
    if |transfer| < DIGEST_BYTES || |transfer| > maxMessage + DIGEST_BYTES then None
    else
      var cut := |transfer| - DIGEST_BYTES;
      if Sha256.Digest(transfer[..cut]) != transfer[cut..] then None else Some(transfer[..cut])
  }

  lemma TransferSplits(message: seq<byte>)
    ensures Transfer(message)[..|message|] == message && Transfer(message)[|message|..] == Sha256.Digest(message)
  {
    hide Sha256.Digest;
  }

  /** Acceptance means exactly that the bytes are some admissible message followed by its digest. */
  lemma VerifiedExactly(transfer: seq<byte>, maxMessage: nat, message: seq<byte>)
    ensures Verified(transfer, maxMessage) == Some(message)
      <==> Transfer(message) == transfer && |message| <= maxMessage
  {
    hide Sha256.Digest;
    TransferSplits(message);
    if Verified(transfer, maxMessage) == Some(message) {
      var cut := |transfer| - DIGEST_BYTES;
      assert transfer == transfer[..cut] + transfer[cut..];
    }
  }

  lemma UnwrapIsVerified(transfer: seq<byte>, maxMessage: nat, total: nat)
    requires maxMessage <= MAX_MESSAGE_BYTES
    requires 44 * (total - 1) < |transfer| <= 44 * total
    ensures Unwrap(transfer, maxMessage, total) == Verified(transfer, maxMessage)
    ensures |transfer| > TRANSFER_MAX_BYTES ==> Verified(transfer, maxMessage).None?
  {
    hide Sha256.Digest;
  }

  /** What a complete reassembly yields. Of the rejections of finish_rx_message only the digest and the two length
      bounds can fire: no segment is missing and the segment count always agrees. */
  lemma CompleteIsAcceptedExactly(l: Link)
    requires Shape(l) && Filled(l.rx) && l.rx.count == l.rx.total
    ensures Accepted(l) == Verified(Concat(l.rx.segments, l.rx.total), l.cfg.maxMessage)
  {
    hide Filled, Assemble, Fits, Unwrap, Verified;
    CompleteMeansAll(l.rx);
    AssembleIsConcat(l.rx, 0);
    UnwrapIsVerified(Concat(l.rx.segments, l.rx.total), l.cfg.maxMessage, l.rx.total);
    hide Concat;
  }

  lemma {:induction false} ConcatAgrees(a: seq<seq<byte>>, b: seq<seq<byte>>, n: nat)
    requires n <= |a| && n <= |b| && forall i | 0 <= i < n :: a[i] == b[i]
    ensures Concat(a, n) == Concat(b, n)
    decreases n
  {
    if n > 0 { ConcatAgrees(a, b, n - 1); }
  }

  /** A message cut into segments and reassembled is the message. */
  lemma ReassemblyInvertsSegmentation(l: Link, message: seq<byte>)
    requires Shape(l) && Filled(l.rx) && l.rx.count == l.rx.total
    requires |message| <= MAX_MESSAGE_BYTES && SegmentCount(|message|) == Some(l.rx.total)
    requires forall i | 0 <= i < l.rx.total :: l.rx.segments[i] == Chunk(Transfer(message), i)
    ensures Accepted(l) == if |message| <= l.cfg.maxMessage then Some(message) else None
  {
    hide Concat, Accepted, Filled, Chunk, Verified, Transfer, SegmentCount;
    CompleteIsAcceptedExactly(l);
    SegmentationIsLossless(message);
    ConcatAgrees(l.rx.segments, Chunks(Transfer(message), l.rx.total), l.rx.total);
    TransferVerifies(message, l.cfg.maxMessage);
  }

  lemma TransferVerifies(message: seq<byte>, maxMessage: nat)
    ensures Verified(Transfer(message), maxMessage) == if |message| <= maxMessage then Some(message) else None
  {
    hide Sha256.Digest;
    TransferSplits(message);
  }

  // ------------------------------------------------------------ delivery

  // The reassembly record a DATA frame is stored into, and that record with the frame's segment in place.
  function Continued(l: Link, f: Frame): (r: Reassembly)
    requires Shape(l) && f.kind == DATA && Canonical(f)
    ensures ReassemblyShape(r)
  {
    if l.rx.active && f.message == l.rx.message then l.rx
    else Begun(if l.rx.active then ClearRx(l.rx) else l.rx, f)
  }

  // The frame supplies the last missing segment of a message the link may take.
  predicate Completes(l: Link, f: Frame)
    requires Shape(l) && f.kind == DATA && Canonical(f)
  {
    && l.session.open && f.session == l.session.id
    && DupLookup(l.dup, l.timer.now, f.session, f.message).1.None?
    && (l.delivery.ready ==> l.rx.active && f.message == l.rx.message)
    && Last(Continued(l, f), f)
  }

  predicate Last(rx: Reassembly, f: Frame)
    requires ReassemblyShape(rx)
  {
    f.value == rx.total && f.sequence < rx.total && !rx.received[f.sequence] && rx.count + 1 == rx.total
  }

  function Whole(rx: Reassembly, f: Frame): seq<byte>
    requires ReassemblyShape(rx) && f.sequence < rx.total
  {
    Concat(rx.segments[f.sequence := f.payload], rx.total)
  }

  // What the end of a message does to the receiver, given the verdict on its bytes.
  predicate Outcome(l: Link, r: (Link, Result), last: bool, verdict: Option<seq<byte>>) {
    && (r.1 == Delivered <==> last && verdict.Some?)
    && (last && verdict.None? ==> r.1 == Integrity)
    && (r.1 == Integrity ==> last)
    && r.0.delivery == (if last && verdict.Some? then Delivery(true, false, verdict.value) else l.delivery)
  }

  lemma FinishRxOutcome(l: Link)
    requires Shape(l) && Filled(l.rx) && l.rx.count == l.rx.total
    ensures Outcome(l, FinishRx(l), true, Verified(Concat(l.rx.segments, l.rx.total), l.cfg.maxMessage))
  {
    hide Filled, Accepted, Canonical, Concat, Verified, DupStore, ClearRx;
    assert 1 <= l.rx.total by { FilledOpens(l.rx); }
    AckFramesCanonical(l.rx);
    CompleteIsAcceptedExactly(l);
  }

  lemma PlaceSegmentOutcome(l: Link, f: Frame)
    requires Shape(l) && Opened(l.rx) && f.kind == DATA && Canonical(f) && f.value == l.rx.total
    ensures f.sequence < l.rx.total
    ensures Outcome(l, PlaceSegment(l, f), Last(l.rx, f), Verified(Whole(l.rx, f), l.cfg.maxMessage))
  {
    hide Opened, Filled, Canonical, Concat, Verified, FinishRx, AckDue, PartialAck, Fits, Count;
    OpenedShape(l.rx);
    DataFits(f);
    if !l.rx.received[f.sequence] {
      StoredFills(l.rx, f);
      var stored := l.(rx := Stored(l.rx, f));
      if stored.rx.count == stored.rx.total { FinishRxOutcome(stored); }
    }
  }

  /** A message is delivered from DATA exactly when a frame completes a reassembly whose segments end to end are that
      message followed by its SHA-256 digest and no longer than the receiver allows; otherwise what the application
      has not yet collected is left untouched. */
  lemma DeliveryImpliesIntegrity(l: Link, f: Frame)
    requires Inv(l) && f.kind == DATA && Canonical(f)
    ensures Completes(l, f) ==> f.sequence < Continued(l, f).total
    ensures Outcome(l, HandleData(l, f), Completes(l, f),
                    if Completes(l, f) then Verified(Whole(Continued(l, f), f), l.cfg.maxMessage) else None)
  {
    hide TxInv, RxInv, RowsInv, Canonical, Opened, PlaceSegment, DupLookup, Verified, Whole, ClearRx;
    ClearRxInv(l.rx);
    if l.session.open && f.session == l.session.id && DupLookup(l.dup, l.timer.now, f.session, f.message).1.None? {
      var looked := l.(dup := DupLookup(l.dup, l.timer.now, f.session, f.message).0);
      if l.rx.active && f.message == l.rx.message {
        ActiveOpens(l.rx);
        if l.rx.total == f.value { PlaceSegmentOutcome(looked, f); }
      } else if !l.delivery.ready {
        var from := if l.rx.active then ClearRx(l.rx) else l.rx;
        BegunOpens(from, f);
        PlaceSegmentOutcome(looked.(rx := Begun(from, f)), f);
      }
    }
  }
}
