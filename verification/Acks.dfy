/**
  The partial acknowledgement: what the receiver packs into a base and a 16-bit map is exactly what the sender marks.
 */
module Acks {
  import opened Bytes
  import opened Wire
  import opened LinkSpec
  import opened Reachable

  lemma ShiftedBit(low: nat, rest: nat, i: nat)
    requires low < 2
    ensures HasBit(low + 2 * rest, i) <==> if i == 0 then low == 1 else HasBit(rest, i - 1)
  {
    Divided(low + 2 * rest, 2, rest, low);
  }

  // One bit of the map, in front of the others.
  lemma BitmapTurn(received: seq<bool>, base: nat, total: nat, bit: nat)
    requires total <= |received| && bit < 16
    ensures Bitmap(received, base, total, bit)
         == if base + 1 + bit >= total then 0
            else (if received[base + 1 + bit] then 1 else 0) + 2 * Bitmap(received, base, total, bit + 1)
  {
    hide Pow2;
  }

  /** Bit i of the map built from position `bit` stands for segment base + 1 + bit + i. */
  lemma {:induction false} BitmapBit(received: seq<bool>, base: nat, total: nat, bit: nat, i: nat)
    requires total <= |received| && bit + i < 16
    ensures HasBit(Bitmap(received, base, total, bit), i)
      <==> base + 1 + bit + i < total && received[base + 1 + bit + i]
    decreases i
  {
    hide HasBit, Bitmap, Pow2;
    BitmapTurn(received, base, total, bit);
    if base + 1 + bit >= total {
      NoBit(i);
    } else {
      ShiftedBit(if received[base + 1 + bit] then 1 else 0, Bitmap(received, base, total, bit + 1), i);
      if i > 0 { BitmapBit(received, base, total, bit + 1, i - 1); }
    }
  }

  lemma {:induction false} NoBit(i: nat)
    ensures !HasBit(0, i)
    decreases i
  {
    if i > 0 { NoBit(i - 1); }
  }

  // What an acknowledgement with base b can say about a segment.
  predicate InReach(b: nat, i: nat) {
    i < b || b + 1 <= i <= b + 16
  }

  lemma PartialAckNames(rx: Reassembly, i: nat)
    requires ReassemblyShape(rx) && i < rx.total
    ensures var b := FirstClear(rx.received, 0, rx.total);
            Names(PartialAck(rx), i) <==> rx.received[i] && InReach(b, i)
  {
    hide Bitmap, HasBit;
    var b := FirstClear(rx.received, 0, rx.total);
    if b < i <= b + 16 { BitmapBit(rx.received, b, rx.total, 0, i - b - 1); }
  }

  /** Applying the acknowledgement built from the received set R with first gap b adds exactly the part of R in [0,b) or
      [b+1,b+16] to the acknowledged set, never b itself, and leaves tx_base as the maximal acknowledged prefix. */
  lemma PartialAckRoundTrip(tx: Sender, rx: Reassembly)
    requires TxInv(tx) && ReassemblyShape(rx) && tx.total == rx.total
    ensures var b, r := FirstClear(rx.received, 0, rx.total), MarkAcked(tx, PartialAck(rx));
      && (forall i | 0 <= i < MAX_SEGMENTS ::
            r.acked[i] <==> tx.acked[i] || (i < tx.total && rx.received[i] && InReach(b, i)))
      && (forall i | 0 <= i < MAX_SEGMENTS ::
            r.inflight[i] <==> tx.inflight[i] && !(i < tx.total && rx.received[i] && InReach(b, i)))
      && (b < tx.total && !tx.acked[b] ==> !r.acked[b])
      && (forall i | 0 <= i < r.base :: r.acked[i]) && (r.base < tx.total ==> !r.acked[r.base])
      && tx.base <= r.base
  {
    hide Names, PartialAck, FirstClear, Fits, HasBit;
    var f := PartialAck(rx);
    var b := FirstClear(rx.received, 0, rx.total);
    forall i | 0 <= i < tx.total
      ensures Names(f, i) <==> rx.received[i] && InReach(b, i)
    {
      PartialAckNames(rx, i);
    }
  }
}
