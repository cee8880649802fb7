/**
  Runs of one link under arbitrary inputs, and the invariant every reachable state keeps: whatever frames arrive,
  in whatever order, at whatever times.
 */
module Reachable {
  import opened Bytes
  import opened Wire
  import opened LinkSpec
  import Codec

  // ------------------------------------------------------------ runs

  /** The atomic events of one link. A public call is one event, except that kal_rx_push_s16 is a Tick followed by one
      Receive for each frame its samples complete, and kal_tx_pull_s16 a Tick followed by a Transmit when it starts a
      frame. */
  datatype Input =
    | Submit(message: seq<byte>, entropy: Option<Entropy>) // kal_send
    | Announce(payload: seq<byte>)                          // kal_beacon
    | Abort(reason: u16)                                    // kal_cancel
    | Tick(time: nat)                                       // kal_tick
    | Receive(raw: Codec.Raw)
    | Transmit
    | Take(capacity: nat)                                   // kal_receive
    | Restart                                               // kal_link_reset

  predicate ValidInput(i: Input) {
    i.Submit? && i.entropy.Some? ==> |i.entropy.value.challenge| == CHALLENGE_BYTES
  }

  function Step(l: Link, i: Input): (r: (Link, Result))
    requires Shape(l) && ValidInput(i)
    ensures Shape(r.0)
  {
    hide Shape, Send, Beacon, Cancel, AdvanceTime, Hear, TakeRow, Collect, Reset;
    match i
    case Submit(message, entropy) => Send(l, message, entropy)
    case Announce(payload) => Beacon(l, payload)
    case Abort(reason) => Cancel(l, reason)
    case Tick(time) => (AdvanceTime(l, time), Success)
    case Receive(raw) => Hear(l, raw)
    case Transmit => (TakeRow(l).0, Success)
    case Take(capacity) => (Collect(l, capacity).0, Collect(l, capacity).1)
    case Restart => (Reset(l), Success)
  }

  predicate ValidInputs(inputs: seq<Input>) {
    forall i <- inputs :: ValidInput(i)
  }

  function Run(l: Link, inputs: seq<Input>): (r: Link)
    requires Shape(l) && ValidInputs(inputs)
    ensures Shape(r)
    decreases |inputs|
  {
    if inputs == [] then l else Step(Run(l, inputs[..|inputs| - 1]), inputs[|inputs| - 1]).0
  }

  // ------------------------------------------------------------ counting

  // How many of the first n flags are set.
  function Count(flags: seq<bool>, n: nat): (c: nat)
    requires n <= |flags|
    ensures c <= n
  {
    if n == 0 then 0 else Count(flags, n - 1) + (if flags[n - 1] then 1 else 0)
  }

  lemma {:induction false} CountSet(flags: seq<bool>, i: nat, n: nat)
    requires i < |flags| && n <= |flags| && !flags[i]
    ensures Count(flags[i := true], n) == Count(flags, n) + (if i < n then 1 else 0)
    decreases n
  {
    if n > 0 { CountSet(flags, i, n - 1); }
  }

  lemma {:induction false} CountFull(flags: seq<bool>, n: nat)
    requires n <= |flags|
    ensures Count(flags, n) == n <==> forall i | 0 <= i < n :: flags[i]
    decreases n
  {
    if n > 0 { CountFull(flags, n - 1); }
  }

  lemma {:induction false} CountNone(flags: seq<bool>, n: nat)
    requires n <= |flags|
    requires forall i | 0 <= i < n :: !flags[i]
    ensures Count(flags, n) == 0
    decreases n
  {
    if n > 0 { CountNone(flags, n - 1); }
  }

  lemma {:induction false} CountPrefix(flags: seq<bool>, m: nat, n: nat)
    requires m <= n <= |flags|
    requires forall i | m <= i < n :: !flags[i]
    ensures Count(flags, n) == Count(flags, m)
    decreases n - m
  {
    if m < n { CountPrefix(flags, m, n - 1); }
  }

  // ------------------------------------------------------------ the invariant

  // Full segments everywhere but at the end, where 1..44 bytes are left.
  predicate Fits(segment: seq<byte>, i: nat, total: nat) {
    if i + 1 == total then 1 <= |segment| <= PAYLOAD_BYTES else |segment| == PAYLOAD_BYTES
  }

  predicate TxInv(tx: Sender) {
    && SenderShape(tx)
    && (tx.active ==> tx.status == Busy && 1 <= tx.total)
    && (!tx.active ==> tx.total == 0 && !tx.started)
    && (forall i | 0 <= i < tx.total :: Fits(tx.segments[i], i, tx.total))
    && (forall i | 0 <= i < MAX_SEGMENTS :: tx.acked[i] || tx.inflight[i] ==> i < tx.total)
    && (forall i | 0 <= i < MAX_SEGMENTS :: !(tx.acked[i] && tx.inflight[i]))
    // tx_base is the maximal acknowledged prefix
    && (forall i | 0 <= i < tx.base :: tx.acked[i])
    && (tx.base < tx.total ==> !tx.acked[tx.base])
  }

  predicate RxInv(rx: Reassembly) {
    && ReassemblyShape(rx)
    && (rx.active <==> 1 <= rx.count < rx.total)
    && (!rx.active ==> rx.count == 0 && rx.total == 0 && rx.ack.None?)
    && rx.count == Count(rx.received, MAX_SEGMENTS)
    && (forall i | 0 <= i < MAX_SEGMENTS :: rx.received[i] ==> i < rx.total && Fits(rx.segments[i], i, rx.total))
    && (rx.ack.Some? ==> RxAck(rx, rx.ack.value))
  }

  // The reply cached for duplicates of a message still in reassembly.
  predicate RxAck(rx: Reassembly, f: Frame) {
    Canonical(f) && f.kind == ACK && f.flags == 0 && f.session == rx.session && f.message == rx.message
  }

  // The reply the duplicate cache keeps: the delivered acknowledgement of its key, or nothing for a beacon.
  predicate DupAck(e: DupEntry) {
    e.Held? && e.ack.Sent? ==>
      Canonical(e.ack.frame) && e.ack.frame.kind == ACK && e.ack.frame.flags == FLAG_ACK_DELIVERED
      && e.ack.frame.session == e.session && e.ack.frame.message == e.message
  }

  predicate SessionInv(l: Link)
    requires Shape(l)
  {
    && !(l.session.open && l.session.pending)
    && (l.session.pending ==> l.cfg.role.Initiator?)
    && (l.rx.active ==> l.session.open && l.rx.session == l.session.id)
    && (l.session.helloAck.Some? ==>
      l.session.open && l.session.helloAck.value == HelloAckFrame(l, l.session.helloAck.value.message))
    && l.session.helloRetries <= l.cfg.maxRetries && l.tx.retries <= l.cfg.maxRetries
  }

  predicate RowOk(row: Row) {
    row.Sent? ==> Canonical(row.frame)
  }

  predicate RowsInv(out: seq<Row>, dup: seq<DupEntry>) {
    && (forall k | 0 <= k < |out| :: RowOk(out[k]))
    && (forall k | 0 <= k < |dup| :: DupAck(dup[k]))
  }

  predicate Inv(l: Link) {
    Shape(l) && TxInv(l.tx) && RxInv(l.rx) && SessionInv(l) && RowsInv(l.out, l.dup)
  }

  lemma InitialInv(cfg: Config, window: nat)
    requires ValidConfig(cfg, window)
    ensures Inv(Initial(cfg, window))
  {
    CountNone(NoneSet(), MAX_SEGMENTS);
  }

  // ------------------------------------------------------------ transmit

  lemma ClearTxInv(tx: Sender, status: Result)
    requires TxInv(tx)
    ensures TxInv(ClearTx(tx).(status := status))
  {
  }

  lemma ClearRxInv(rx: Reassembly)
    requires RxInv(rx)
    ensures RxInv(ClearRx(rx)) && !ClearRx(rx).active
  {
    CountNone(NoneSet(), MAX_SEGMENTS);
  }

  /** Every DATA frame the link builds is canonical. */
  lemma DataFrameCanonical(l: Link, sequence: nat)
    requires Shape(l) && TxInv(l.tx) && sequence < l.tx.total
    ensures Canonical(DataFrame(l, sequence))
  {
    assert Fits(l.tx.segments[sequence], sequence, l.tx.total);
  }

  // What queue_window does to the marks and to the ring.
  predicate Queued(l: Link, r: Link, from: nat)
    requires Shape(l) && Shape(r)
  {
    && |l.out| <= |r.out| && r.out[..|l.out|] == l.out
    && (forall i | 0 <= i < MAX_SEGMENTS :: r.tx.inflight[i] ==>
      l.tx.inflight[i] || (from <= i < l.tx.total && !l.tx.acked[i]))
    && (forall i | 0 <= i < MAX_SEGMENTS :: l.tx.inflight[i] ==> r.tx.inflight[i])
    && (forall k | |l.out| <= k < |r.out| :: r.out[k].Sent? && NewData(l, r, r.out[k].frame, from))
    && (forall j, k | |l.out| <= j < k < |r.out| :: r.out[j].frame.sequence < r.out[k].frame.sequence)
  }

  // A DATA frame of l's transfer whose segment was neither acknowledged nor on air, and now is on air.
  predicate NewData(l: Link, r: Link, f: Frame, from: nat)
    requires Shape(l) && Shape(r)
  {
    && from <= f.sequence < l.tx.total && f == DataFrame(l, f.sequence)
    && !l.tx.acked[f.sequence] && !l.tx.inflight[f.sequence] && r.tx.inflight[f.sequence]
  }

  lemma QueuedOne(l: Link, sequence: nat, r: Link)
    requires Shape(l) && TxInv(l.tx) && Shape(r) && sequence < l.tx.total
    requires !l.tx.acked[sequence] && !l.tx.inflight[sequence] && |l.out| < OUT_QUEUE_FRAMES
    requires var marked := Marked(l, sequence); Queued(marked, r, sequence + 1)
    ensures Queued(l, r, sequence)
  {
    hide Canonical, TxInv;
    var marked := Marked(l, sequence);
    var f := DataFrame(l, sequence);
    assert r.out[|l.out|] == marked.out[|l.out|] == Sent(f);
    assert r.out[..|l.out|] == marked.out[..|l.out|];
    forall k | |l.out| <= k < |r.out|
      ensures r.out[k].Sent? && NewData(l, r, r.out[k].frame, sequence)
    {
      if k > |l.out| {
        assert NewData(marked, r, r.out[k].frame, sequence + 1);
      }
    }
  }

  // One segment queued and marked.
  function Marked(l: Link, sequence: nat): (r: Link)
    requires Shape(l) && sequence < l.tx.total && |l.out| < OUT_QUEUE_FRAMES
    ensures Shape(r)
  {
    l.(out := l.out + [Sent(DataFrame(l, sequence))], tx := l.tx.(inflight := l.tx.inflight[sequence := true]))
  }

  // The three ways one turn of the queue_window loop can go.
  predicate Skips(l: Link, sequence: nat, queued: nat)
    requires Shape(l)
  {
    sequence < l.tx.total && queued < l.window && (l.tx.acked[sequence] || l.tx.inflight[sequence])
  }

  predicate Queues(l: Link, sequence: nat, queued: nat)
    requires Shape(l)
  {
    && sequence < l.tx.total && queued < l.window && !l.tx.acked[sequence] && !l.tx.inflight[sequence]
    && |l.out| < OUT_QUEUE_FRAMES
  }

  lemma QueueFromTurn(l: Link, sequence: nat, queued: nat)
    requires Shape(l) && TxInv(l.tx)
    ensures Skips(l, sequence, queued) ==> QueueFrom(l, sequence, queued) == QueueFrom(l, sequence + 1, queued)
    ensures Queues(l, sequence, queued) ==>
      QueueFrom(l, sequence, queued) == QueueFrom(Marked(l, sequence), sequence + 1, queued + 1)
    ensures !Skips(l, sequence, queued) && !Queues(l, sequence, queued) ==>
      QueueFrom(l, sequence, queued) == (l, queued)
  {
    if Queues(l, sequence, queued) { DataFrameCanonical(l, sequence); }
    hide TxInv, DataFrame, Canonical;
  }

  lemma {:induction false} QueueFromQueued(l: Link, sequence: nat, queued: nat)
    requires Shape(l) && TxInv(l.tx)
    ensures Queued(l, QueueFrom(l, sequence, queued).0, sequence)
    ensures QueueFrom(l, sequence, queued).1 - queued == |QueueFrom(l, sequence, queued).0.out| - |l.out|
    ensures TxInv(QueueFrom(l, sequence, queued).0.tx)
    decreases MAX_SEGMENTS - sequence
  {
    hide TxInv, QueueFrom, DataFrame;
    QueueFromTurn(l, sequence, queued);
    if Skips(l, sequence, queued) {
      QueueFromQueued(l, sequence + 1, queued);
      QueuedLater(l, QueueFrom(l, sequence, queued).0, sequence);
    } else if Queues(l, sequence, queued) {
      MarkedInv(l, sequence);
      QueueFromQueued(Marked(l, sequence), sequence + 1, queued + 1);
      QueuedOne(l, sequence, QueueFrom(l, sequence, queued).0);
    }
  }

  lemma QueuedLater(l: Link, r: Link, from: nat)
    requires Shape(l) && Shape(r) && Queued(l, r, from + 1)
    ensures Queued(l, r, from)
  {
    hide DataFrame, Shape;
    forall k | |l.out| <= k < |r.out|
      ensures r.out[k].Sent? && NewData(l, r, r.out[k].frame, from)
    {
      assert NewData(l, r, r.out[k].frame, from + 1);
    }
  }

  lemma MarkedInv(l: Link, sequence: nat)
    requires Shape(l) && TxInv(l.tx) && sequence < l.tx.total && |l.out| < OUT_QUEUE_FRAMES && !l.tx.acked[sequence]
    ensures TxInv(Marked(l, sequence).tx)
  {
    hide DataFrame;
  }
}
