/**
  Every input keeps the invariant of Reachable, so it holds after every run; and every frame the link builds is
  canonical, so nothing but a full ring makes queue_frame refuse one.
 */
module Invariant {
  import opened Bytes
  import opened Wire
  import opened LinkSpec
  import opened Reachable
  import Codec

  // ------------------------------------------------------------ the ring

  lemma InvShape(l: Link)
    requires Inv(l)
    ensures Shape(l)
  {
  }

  lemma QueueRowInv(l: Link, row: Row)
    requires Inv(l) && RowOk(row)
    ensures Inv(QueueRow(l, row))
  {
    hide TxInv, RxInv, Canonical, Shape;
    assert Shape(QueueRow(l, row));
  }

  lemma QueueFrameInv(l: Link, f: Frame)
    requires Inv(l)
    ensures Inv(QueueFrame(l, f).0)
    ensures Canonical(f) ==> (QueueFrame(l, f).1 <==> |l.out| < OUT_QUEUE_FRAMES)
  {
    hide TxInv, RxInv, Canonical, Shape;
    assert Shape(QueueFrame(l, f).0);
  }

  // ------------------------------------------------------------ frames the link builds

  /** build_hello and the HELLO_ACK of handle_hello. */
  lemma HelloFramesCanonical(l: Link, message: u16)
    requires Shape(l)
    ensures Canonical(HelloFrame(l)) && Canonical(HelloAckFrame(l, message))
    ensures CapabilityProfile(HelloFrame(l).value) == l.cfg.profile && CapabilityWindow(HelloFrame(l).value) == l.window
    ensures CapabilityProfile(HelloAckFrame(l, message).value) == l.cfg.profile
    ensures CapabilityWindow(HelloAckFrame(l, message).value) == l.window
  {
    CapabilityFields(l.cfg.profile, l.window);
  }

  lemma CapabilityFields(profile: u8, window: u16)
    requires window < 256
    ensures CapabilityProfile(CapabilityPack(profile, window)) == profile
    ensures CapabilityWindow(CapabilityPack(profile, window)) == window
  {
    Divided(window, 256, 0, window);
    Divided(CapabilityPack(profile, window), 256, profile, window);
  }

  /** queue_partial_ack and the ACK of finish_rx_message. */
  lemma AckFramesCanonical(rx: Reassembly)
    requires ReassemblyShape(rx)
    ensures RxAck(rx, PartialAck(rx))
    ensures 1 <= rx.total ==> Canonical(DeliveredAck(rx))
    ensures 1 <= rx.total ==> DupAck(Held(rx.session, rx.message, 0, Sent(DeliveredAck(rx))))
  {
    hide Bitmap, FirstClear;
  }

  lemma CancelFrameCanonical(l: Link, reason: u16)
    requires Shape(l) && reason <= CANCEL_REASON_MAX
    ensures Canonical(CancelFrame(l, reason))
  {
  }

  // ------------------------------------------------------------ transmit

  lemma ResumeInv(l: Link, retransmission: bool)
    requires Inv(l)
    ensures Inv(StartOrResume(l, retransmission))
  {
    hide RxInv, Canonical, Shape, DataFrame;
    var (next, queued) := QueueFrom(l, l.tx.base, 0);
    QueueFromRows(l);
    QueueFromFrame(l, l.tx.base, 0);
    QueueFromQueued(l, l.tx.base, 0);
    if queued != 0 {
      hide QueueFrom;
      assert 0 < l.tx.total;
    } else {
      hide TxInv, QueueFrom;
    }
  }

  lemma QueueFromRows(l: Link)
    requires Inv(l)
    ensures RowsInv(QueueFrom(l, l.tx.base, 0).0.out, l.dup)
    ensures QueueFrom(l, l.tx.base, 0).1 > 0 ==> l.tx.base < l.tx.total
  {
    var r := QueueFrom(l, l.tx.base, 0).0;
    QueueFromQueued(l, l.tx.base, 0);
    forall k | |l.out| <= k < |r.out|
      ensures RowOk(r.out[k])
    {
      var f := r.out[k].frame;
      assert NewData(l, r, f, l.tx.base);
      DataFrameCanonical(l, f.sequence);
    }
    hide DataFrame, Canonical, TxInv, RxInv;
    forall k | 0 <= k < |l.out|
      ensures RowOk(r.out[k])
    {
      assert r.out[k] == r.out[..|l.out|][k];
    }
  }

  lemma {:induction false} ChunkFits(message: seq<byte>, i: nat)
    requires |message| <= MAX_MESSAGE_BYTES && i < SegmentCount(|message|).value
    ensures Fits(Chunk(Transfer(message), i), i, SegmentCount(|message|).value)
  {
    hide Transfer;
  }

  lemma LoadInv(l: Link, message: seq<byte>)
    requires Inv(l) && |message| <= MAX_MESSAGE_BYTES
    ensures Inv(Load(l, message))
  {
    hide RxInv, RowsInv, Chunk, SegmentCount, Transfer;
    forall i | 0 <= i < SegmentCount(|message|).value
      ensures Fits(Load(l, message).tx.segments[i], i, SegmentCount(|message|).value)
    {
      ChunkFits(message, i);
    }
  }

  lemma OpenSessionInv(l: Link, entropy: Option<Entropy>)
    requires Inv(l) && !l.session.open
    requires entropy.Some? ==> |entropy.value.challenge| == CHALLENGE_BYTES
    ensures Inv(OpenSession(l, entropy).0)
    ensures OpenSession(l, entropy).0.tx == l.tx
  {
    hide RxInv, Canonical, HelloFrame, TxInv;
    if l.cfg.role.Initiator? && entropy.Some? {
      var id: u32 := if entropy.value.session == 0 then 1 else entropy.value.session;
      var named := l.(session := l.session.(id := id, challenge := entropy.value.challenge));
      assert Inv(named);
      QueueFrameInv(named, HelloFrame(named));
    }
  }

  lemma ClearedTxInv(l: Link, status: Result)
    requires Inv(l)
    ensures Inv(l.(tx := ClearTx(l.tx).(status := status)))
  {
    ClearTxInv(l.tx, status);
    hide TxInv, RxInv, RowsInv;
  }

  lemma ClearedRxInv(l: Link)
    requires Inv(l)
    ensures Inv(l.(rx := ClearRx(l.rx)))
  {
    ClearRxInv(l.rx);
    hide TxInv, RxInv, RowsInv;
  }

  lemma SendInv(l: Link, message: seq<byte>, entropy: Option<Entropy>)
    requires Inv(l)
    requires entropy.Some? ==> |entropy.value.challenge| == CHALLENGE_BYTES
    ensures Inv(Send(l, message, entropy).0)
  {
    hide TxInv, RxInv, RowsInv, SenderShape, ReassemblyShape, OpenSession, StartOrResume, Load;
    if |message| <= l.cfg.maxMessage && !l.tx.active {
      LoadInv(l, message);
      var loaded := Load(l, message);
      DispatchInv(loaded, entropy);
    }
  }

  lemma DispatchInv(l: Link, entropy: Option<Entropy>)
    requires Inv(l)
    requires entropy.Some? ==> |entropy.value.challenge| == CHALLENGE_BYTES
    ensures Inv(Dispatch(l, entropy).0)
  {
    hide TxInv, RxInv, SessionInv, RowsInv, OpenSession, StartOrResume;
    if l.session.open {
      ResumeInv(l, false);
    } else if l.cfg.role.Initiator? && !l.session.pending {
      OpenSessionInv(l, entropy);
      ClearedTxInv(OpenSession(l, entropy).0, OpenSession(l, entropy).1);
    }
  }

  lemma BeaconInv(l: Link, payload: seq<byte>)
    requires Inv(l)
    ensures Inv(Beacon(l, payload).0)
  {
    hide Inv, Canonical;
    if payload != [] && |payload| <= MAX_BEACON_BYTES {
      QueueFrameInv(l, Frame(BEACON, l.session.id, l.session.nextMessage, 0, 0, 0, payload));
    }
  }

  lemma FailTxInv(l: Link, status: Result, reason: u16)
    requires Inv(l)
    ensures Inv(FailTx(l, status, reason))
  {
    hide Canonical, CancelFrame, TxInv, RxInv, RowsInv;
    QueueFrameInv(l, CancelFrame(l, reason));
    ClearedTxInv(QueueFrame(l, CancelFrame(l, reason)).0, status);
  }

  lemma CancelInv(l: Link, reason: u16)
    requires Inv(l)
    ensures Inv(Cancel(l, reason).0)
  {
    hide TxInv, RxInv, SessionInv, RowsInv, FailTx;
    FailTxInv(l, Cancelled, reason);
    ClearedRxInv(FailTx(l, Cancelled, reason));
  }

  // ------------------------------------------------------------ timers

  lemma RetimedInv(l: Link, timer: Timer)
    requires Inv(l)
    ensures Inv(l.(timer := timer))
  {
    hide TxInv, RxInv, RowsInv;
  }

  lemma ExpireHelloInv(l: Link)
    requires Inv(l) && l.session.pending
    ensures Inv(ExpireHello(l))
  {
    hide TxInv, RxInv, RowsInv, Canonical, HelloFrame;
    QueueFrameInv(l, HelloFrame(l));
    ClearedTxInv(l, Timeout);
  }

  // The sender at a DATA expiry: the in-flight marks are cleared, one retry is spent, the timeout doubles.
  function Expired(l: Link): (r: Link)
    requires Shape(l)
    ensures Shape(r)
  {
    l.(tx := l.tx.(retries := l.tx.retries + 1, inflight := NoneSet()), timer := BackOff(l.timer))
  }

  lemma ExpiredInv(l: Link)
    requires Inv(l) && l.tx.retries < l.cfg.maxRetries
    ensures Inv(Expired(l))
  {
    hide RxInv, RowsInv, BackOff, Fits;
  }

  lemma ExpireDataInv(l: Link)
    requires Inv(l)
    ensures Inv(ExpireData(l))
  {
    hide TxInv, RxInv, RowsInv, SessionInv, FailTx, StartOrResume, Shape, BackOff, NoneSet;
    if l.tx.retries >= l.cfg.maxRetries {
      FailTxInv(l, Timeout, CANCEL_TIMEOUT);
    } else {
      ExpiredInv(l);
      ResumeInv(Expired(l), true);
    }
  }

  lemma AdvanceTimeInv(l: Link, time: nat)
    requires Inv(l)
    ensures Inv(AdvanceTime(l, time))
  {
    hide Inv, ExpireHello, ExpireData;
    var moved := l.(timer := l.timer.(now := if time > l.timer.now then time else l.timer.now));
    RetimedInv(l, moved.timer);
    if Due(l, time) {
      var fired := moved.(timer := moved.timer.(deadline := None));
      RetimedInv(moved, fired.timer);
      if l.session.pending {
        ExpireHelloInv(fired);
      } else if l.tx.active && l.tx.started {
        ExpireDataInv(fired);
      }
    }
  }

  // ------------------------------------------------------------ duplicate cache

  lemma {:induction false} DupLookupEntries(dup: seq<DupEntry>, now: nat, session: u32, message: u16)
    ensures var r := DupLookup(dup, now, session, message);
            (forall k | 0 <= k < |dup| ::
              r.0[k] == dup[k] || (r.0[k] == Vacant && dup[k].Held? && dup[k].expires <= now))
    ensures var r := DupLookup(dup, now, session, message);
            r.1.Some? ==> exists k | 0 <= k < |dup| ::
              Live(dup[k], now) && dup[k].session == session && dup[k].message == message && dup[k].ack == r.1.value
    decreases |dup|
  {
    if dup != [] && !(Live(dup[0], now) && dup[0].session == session && dup[0].message == message) {
      DupLookupEntries(dup[1..], now, session, message);
      var rest := DupLookup(dup[1..], now, session, message);
      if rest.1.Some? {
        var k :| 0 <= k < |dup[1..]| && Live(dup[1..][k], now) && dup[1..][k].session == session
          && dup[1..][k].message == message && dup[1..][k].ack == rest.1.value;
        assert dup[k + 1] == dup[1..][k];
      }
    }
  }

  lemma LookedInv(l: Link, session: u32, message: u16)
    requires Inv(l)
    ensures var r := DupLookup(l.dup, l.timer.now, session, message);
            Inv(l.(dup := r.0)) && (r.1.Some? ==> RowOk(r.1.value))
            && (r.1.Some? ==> DupAck(Held(session, message, 0, r.1.value)))
  {
    hide TxInv, RxInv, Canonical, DupLookup;
    DupLookupEntries(l.dup, l.timer.now, session, message);
  }

  lemma StoredInv(l: Link, session: u32, message: u16, row: Row)
    requires Inv(l) && DupAck(Held(session, message, 0, row))
    ensures Inv(l.(dup := DupStore(l.dup, l.timer.now, l.cfg.airtime, session, message, row)))
  {
    hide TxInv, RxInv, RowOk, Canonical, DupVictim;
  }

  // ------------------------------------------------------------ reassembly

  // The reassembly record right after a segment was stored, when the message may be complete.
  predicate Filled(rx: Reassembly) {
    && ReassemblyShape(rx)
    && rx.active && 1 <= rx.count <= rx.total
    && rx.count == Count(rx.received, MAX_SEGMENTS)
    && (forall i | 0 <= i < MAX_SEGMENTS :: rx.received[i] ==> i < rx.total && Fits(rx.segments[i], i, rx.total))
    && (rx.ack.Some? ==> RxAck(rx, rx.ack.value))
  }

  // Ready to take a segment: mid-message, or just begun.
  predicate Opened(rx: Reassembly) {
    && ReassemblyShape(rx)
    && rx.active && rx.count < rx.total
    && rx.count == Count(rx.received, MAX_SEGMENTS)
    && (forall i | 0 <= i < MAX_SEGMENTS :: rx.received[i] ==> i < rx.total && Fits(rx.segments[i], i, rx.total))
    && (rx.ack.Some? ==> RxAck(rx, rx.ack.value))
  }

  lemma OpenedShape(rx: Reassembly)
    requires Opened(rx)
    ensures ReassemblyShape(rx)
  {
  }

  lemma DataFits(f: Frame)
    requires f.kind == DATA && Canonical(f)
    ensures f.sequence < f.value <= MAX_SEGMENTS && Fits(f.payload, f.sequence, f.value)
  {
  }

  lemma StoredFills(rx: Reassembly, f: Frame)
    requires Opened(rx) && f.sequence < rx.total && !rx.received[f.sequence] && Fits(f.payload, f.sequence, rx.total)
    ensures Filled(Stored(rx, f))
  {
    CountSet(rx.received, f.sequence, MAX_SEGMENTS);
    hide Count, Canonical;
  }

  lemma BegunOpens(rx: Reassembly, f: Frame)
    requires RxInv(rx) && !rx.active && f.kind == DATA && Canonical(f)
    ensures Opened(Begun(rx, f))
  {
    CountNoneInverse(rx.received, MAX_SEGMENTS);
  }

  lemma {:induction false} CountNoneInverse(flags: seq<bool>, n: nat)
    requires n <= |flags| && Count(flags, n) == 0
    ensures forall i | 0 <= i < n :: !flags[i]
    decreases n
  {
    if n > 0 { CountNoneInverse(flags, n - 1); }
  }

  // What the link as a whole satisfies while a segment is being placed.
  predicate Mid(l: Link) {
    Shape(l) && TxInv(l.tx) && SessionInv(l) && RowsInv(l.out, l.dup)
  }

  lemma PartialAckInv(l: Link)
    requires Mid(l) && Opened(l.rx) && 1 <= l.rx.count
    ensures Inv(QueuePartialAck(l))
  {
    AckFramesCanonical(l.rx);
    hide TxInv, Canonical, PartialAck, Count, Fits;
  }

  lemma DroppedInv(l: Link, delivery: Delivery)
    requires Mid(l)
    ensures Inv(l.(rx := ClearRx(l.rx), delivery := delivery))
  {
    CountNone(NoneSet(), MAX_SEGMENTS);
    hide TxInv, Count, RowsInv;
  }

  lemma FinishRxInv(l: Link)
    requires Mid(l) && 1 <= l.rx.total
    ensures Inv(FinishRx(l).0) && !FinishRx(l).0.rx.active
  {
    hide TxInv, RxInv, SessionInv, RowsInv, Shape, Canonical, Accepted, Deliver, NoneSet, NoSegments;
    DroppedInv(l, l.delivery);
    if Accepted(l).Some? { DeliverInv(l, Accepted(l).value); }
  }

  lemma DeliverInv(l: Link, message: seq<byte>)
    requires Mid(l) && 1 <= l.rx.total
    ensures Inv(Deliver(l, message).0) && !Deliver(l, message).0.rx.active
  {
    AckFramesCanonical(l.rx);
    hide TxInv, RxInv, SessionInv, RowsInv, Shape, Canonical, DupStore, Deliver, DeliveredAck, QueueRow;
    var row := Sent(DeliveredAck(l.rx));
    var staged := l.(rx := ClearRx(l.rx), delivery := Delivery(true, false, message));
    DroppedInv(l, staged.delivery);
    QueueRowInv(staged, row);
    StoredInv(QueueRow(staged, row), l.rx.session, l.rx.message, row);
  }

  lemma RepeatSegmentInv(l: Link, f: Frame)
    requires Mid(l) && Opened(l.rx) && f.sequence < l.rx.total && l.rx.received[f.sequence]
    ensures Inv(RepeatSegment(l, f).0)
  {
    assert 1 <= l.rx.count by {
      if l.rx.count == 0 { CountNoneInverse(l.rx.received, MAX_SEGMENTS); }
    }
    hide TxInv, Canonical, Count, Fits, RowsInv, Shape, QueueRow, QueuePartialAck;
    assert Inv(l);
    PartialAckInv(l);
    if l.rx.ack.Some? { QueueRowInv(l, Sent(l.rx.ack.value)); }
  }

  lemma FilledOpens(rx: Reassembly)
    requires Filled(rx)
    ensures rx.count != rx.total ==> Opened(rx) && 1 <= rx.count
    ensures 1 <= rx.total
  {
    hide Count, Canonical, Fits;
  }

  lemma NewSegmentInv(l: Link, f: Frame)
    requires Mid(l) && Opened(l.rx) && f.kind == DATA && Canonical(f) && f.value == l.rx.total
    requires f.sequence < l.rx.total && !l.rx.received[f.sequence]
    ensures Inv(NewSegment(l, f).0)
  {
    hide Filled, Fits, Canonical, QueuePartialAck, FinishRx, AckDue, Count;
    DataFits(f);
    OpenedShape(l.rx);
    StoredFills(l.rx, f);
    var stored := l.(rx := Stored(l.rx, f));
    FilledOpens(stored.rx);
    if stored.rx.count == stored.rx.total {
      FinishRxInv(stored);
    } else {
      PartialAckInv(stored);
    }
  }

  lemma PlaceSegmentInv(l: Link, f: Frame)
    requires Mid(l) && Opened(l.rx) && f.kind == DATA && Canonical(f) && f.value == l.rx.total
    ensures Inv(PlaceSegment(l, f).0)
  {
    hide Mid, Opened, Inv, Fits, Canonical, RepeatSegment, NewSegment, Count;
    DataFits(f);
    OpenedShape(l.rx);
    if l.rx.received[f.sequence] {
      RepeatSegmentInv(l, f);
    } else {
      NewSegmentInv(l, f);
    }
  }

  lemma HandleDataInv(l: Link, f: Frame)
    requires Inv(l) && f.kind == DATA && Canonical(f)
    ensures Inv(HandleData(l, f).0)
  {
    hide TxInv, Canonical, Count, Fits, RowsInv, QueueRow, PlaceSegment, DupLookup, RxInv;
    if l.session.open && f.session == l.session.id {
      LookedInv(l, f.session, f.message);
      var (dup, cached) := DupLookup(l.dup, l.timer.now, f.session, f.message);
      var looked := l.(dup := dup);
      if cached.Some? {
        QueueRowInv(looked, cached.value);
      } else if l.rx.active && f.message != l.rx.message {
        ClearedRxInv(looked);
        StoreSegmentInv(looked.(rx := ClearRx(l.rx)), f);
      } else {
        StoreSegmentInv(looked, f);
      }
    }
  }

  lemma ActiveOpens(rx: Reassembly)
    requires RxInv(rx) && rx.active
    ensures Opened(rx)
  {
    hide Count, Canonical, Fits;
  }

  lemma StoreSegmentInv(l: Link, f: Frame)
    requires Inv(l) && f.kind == DATA && Canonical(f) && l.session.open && f.session == l.session.id
    ensures Inv(StoreSegment(l, f).0)
  {
    hide TxInv, RxInv, RowsInv, Canonical, Opened, PlaceSegment;
    if l.rx.active {
      ActiveOpens(l.rx);
      if l.rx.total == f.value { PlaceSegmentInv(l, f); }
    } else if !l.delivery.ready {
      BegunOpens(l.rx, f);
      PlaceSegmentInv(l.(rx := Begun(l.rx, f)), f);
    }
  }

  // ------------------------------------------------------------ acknowledgements

  lemma MarkAckedInv(tx: Sender, f: Frame)
    requires TxInv(tx) && tx.active
    ensures TxInv(MarkAcked(tx, f))
    ensures forall i | 0 <= i < MAX_SEGMENTS :: tx.acked[i] ==> MarkAcked(tx, f).acked[i]
    ensures tx.base <= MarkAcked(tx, f).base
  {
    hide Names, Fits;
  }

  lemma HandleAckInv(l: Link, f: Frame)
    requires Inv(l)
    ensures Inv(HandleAck(l, f).0)
  {
    if l.tx.active && f.session == l.session.id && f.message == l.tx.message {
      if Flagged(f) {
        ClearTxInv(l.tx, Success);
        hide TxInv, RxInv, RowsInv;
      } else if f.sequence <= l.tx.total {
        MarkAckedInv(l.tx, f);
        hide TxInv, RxInv, RowsInv, AckedAfter, InflightAfter, StartOrResume, Recompute;
        var marked := l.(tx := MarkAcked(l.tx, f), timer := Recompute(l.timer, l.cfg.airtime, l.window));
        ResumeInv(marked, false);
        RetimedInv(StartOrResume(marked, false), Arm(StartOrResume(marked, false).timer));
      }
    }
  }

  // ------------------------------------------------------------ opening, cancel, beacon

  // The reply cached for the previous session plays no part in taking over a new one.
  function Uncached(l: Link): Link {
    l.(session := l.session.(helloAck := None))
  }

  lemma AdoptUncached(l: Link, f: Frame)
    requires Shape(l) && f.kind == HELLO && Canonical(f)
    ensures Shape(Uncached(l)) && AdoptSession(l, f).1 == AdoptSession(Uncached(l), f).1 == Success
    ensures AdoptSession(l, f).0 == AdoptSession(Uncached(l), f).0
            == Answered(Named(Uncached(l), f), HelloAckFrame(Named(Uncached(l), f), f.message))
  {
    hide Canonical, StartOrResume, Recompute;
    HelloFramesCanonical(Named(l, f), f.message);
    HelloFramesCanonical(Named(Uncached(l), f), f.message);
  }

  lemma NamedInv(l: Link, f: Frame)
    requires Inv(l) && f.kind == HELLO && Canonical(f)
    requires !l.session.pending && !l.rx.active
    ensures Inv(Named(Uncached(l), f))
  {
    hide TxInv, RxInv, RowsInv, Canonical, HelloAckFrame;
  }

  // A link that has answered a HELLO and not yet gone on with a transfer of its own.
  function Welcomed(l: Link, reply: Frame): Link
    requires Shape(l)
  {
    QueueRow(l, Sent(reply))
      .(session := l.session.(helloAck := Some(reply), open := true),
        timer := Recompute(l.timer, l.cfg.airtime, l.window))
  }

  lemma WelcomedInv(l: Link, message: u16)
    requires Inv(l) && !l.session.pending && !l.rx.active && l.session.helloAck.None?
    ensures Inv(Welcomed(l, HelloAckFrame(l, message)))
  {
    hide TxInv, RxInv, RowsInv, Canonical, Recompute;
    HelloFramesCanonical(l, message);
    QueueRowInv(l, Sent(HelloAckFrame(l, message)));
  }

  lemma AnsweredInv(l: Link, message: u16)
    requires Inv(l) && !l.session.pending && !l.rx.active && l.session.helloAck.None?
    ensures Inv(Answered(l, HelloAckFrame(l, message)))
  {
    hide TxInv, RxInv, RowsInv, Canonical, StartOrResume, Recompute, HelloAckFrame;
    WelcomedInv(l, message);
    ResumeInv(Welcomed(l, HelloAckFrame(l, message)), false);
  }

  lemma AdoptSessionInv(l: Link, f: Frame)
    requires Inv(l) && f.kind == HELLO && Canonical(f)
    requires !l.session.pending && !l.rx.active
    ensures Inv(AdoptSession(l, f).0)
  {
    hide TxInv, RxInv, RowsInv, Canonical, AdoptSession, HelloAckFrame, Answered;
    AdoptUncached(l, f);
    NamedInv(l, f);
    AnsweredInv(Named(Uncached(l), f), f.message);
  }

  lemma CollideInv(l: Link, f: Frame)
    requires Inv(l) && l.session.pending && f.kind == HELLO && Canonical(f)
    ensures Inv(Collide(l, f).0)
  {
    hide TxInv, RxInv, RowsInv, Canonical, AdoptSession, Shape;
    if Below(f.session, l.session.id) {
      ClearedTxInv(l, l.tx.status);
      assert Inv(Yield(l));
      AdoptSessionInv(Yield(l), f);
    }
  }

  lemma ReplaceInv(l: Link, f: Frame)
    requires Inv(l) && !l.session.pending && f.kind == HELLO && Canonical(f)
    ensures Inv(Replace(l, f).0)
  {
    hide TxInv, RxInv, SessionInv, RowsInv, Canonical, AdoptSession, Shape;
    ClearedRxInv(l);
    VacatedInv(l.(rx := ClearRx(l.rx)));
    AdoptSessionInv(l.(rx := ClearRx(l.rx), dup := NoDuplicates()), f);
  }

  lemma HandleHelloInv(l: Link, f: Frame)
    requires Inv(l) && f.kind == HELLO && Canonical(f)
    ensures Inv(HandleHello(l, f).0)
  {
    hide TxInv, RxInv, RowsInv, Shape, Canonical, AdoptSession, Collide, Replace, QueueRow;
    if CapabilityProfile(f.value) == l.cfg.profile {
      if l.session.pending {
        CollideInv(l, f);
      } else if l.session.open && f.session == l.session.id {
        if l.session.helloAck.Some? {
          HelloFramesCanonical(l, l.session.helloAck.value.message);
          QueueRowInv(l, Sent(l.session.helloAck.value));
        }
      } else if l.session.open {
        ReplaceInv(l, f);
      } else {
        AdoptSessionInv(l, f);
      }
    }
  }

  lemma VacatedInv(l: Link)
    requires Inv(l)
    ensures Inv(l.(dup := NoDuplicates()))
  {
    hide TxInv, RxInv, RowOk;
  }

  lemma HandleHelloAckInv(l: Link, f: Frame)
    requires Inv(l)
    ensures Inv(HandleHelloAck(l, f).0)
  {
    hide TxInv, RxInv, RowsInv, StartOrResume, Recompute;
    if HandleHelloAck(l, f).1 == Success {
      var window := Negotiated(l, f);
      var begun := l.(session := l.session.(pending := false, open := true), window := window,
                       timer := Recompute(l.timer, l.cfg.airtime, window).(deadline := None));
      assert Inv(begun);
      ResumeInv(begun, false);
    }
  }

  lemma HandleCancelInv(l: Link, f: Frame)
    requires Inv(l)
    ensures Inv(HandleCancel(l, f).0)
  {
    ClearTxInv(l.tx, Cancelled);
    ClearRxInv(l.rx);
    hide TxInv, RxInv, RowsInv;
  }

  lemma HandleBeaconInv(l: Link, f: Frame)
    requires Inv(l)
    ensures Inv(HandleBeacon(l, f).0)
  {
    hide TxInv, RxInv, SessionInv, RowsInv, DupLookup, DupStore;
    LookedInv(l, f.session, f.message);
    var looked := l.(dup := DupLookup(l.dup, l.timer.now, f.session, f.message).0);
    StoredInv(looked, f.session, f.message, Blank);
    var stored := looked.(dup := DupStore(looked.dup, l.timer.now, l.cfg.airtime, f.session, f.message, Blank));
    DeliveryInv(stored, Delivery(true, true, f.payload));
  }

  lemma DeliveryInv(l: Link, delivery: Delivery)
    requires Inv(l)
    ensures Inv(l.(delivery := delivery))
  {
    hide TxInv, RxInv, RowsInv;
  }

  // ------------------------------------------------------------ every input, every run

  lemma HandleFrameInv(l: Link, f: Frame)
    requires Inv(l) && Canonical(f)
    ensures Inv(HandleFrame(l, f).0)
  {
    hide TxInv, RxInv, SessionInv, RowsInv, Shape, HandleHello, HandleHelloAck, HandleData, HandleAck, HandleCancel,
      HandleBeacon, Canonical;
    if f.kind == HELLO {
      HandleHelloInv(l, f);
    } else if f.kind == HELLO_ACK {
      HandleHelloAckInv(l, f);
    } else if f.kind == DATA {
      HandleDataInv(l, f);
    } else if f.kind == ACK {
      HandleAckInv(l, f);
    } else if f.kind == CANCEL {
      HandleCancelInv(l, f);
    } else {
      HandleBeaconInv(l, f);
    }
  }

  lemma HearInv(l: Link, raw: Codec.Raw)
    requires Inv(l)
    ensures Inv(Hear(l, raw).0)
  {
    hide TxInv, RxInv, RowsInv, HandleFrame, Canonical;
    var noted := l.(heard := Some(Heard(raw, l.timer.now)));
    assert Inv(noted);
    var decoded := Codec.Decode(raw);
    if decoded.Good? {
      HandleFrameInv(noted, decoded.frame);
    }
  }

  lemma ResetInv(l: Link)
    requires Inv(l)
    ensures Inv(Reset(l))
  {
    ClearTxInv(l.tx, Success);
    ClearRxInv(l.rx);
    hide TxInv, RxInv, Recompute;
  }

  lemma TakeInv(l: Link, capacity: nat)
    requires Inv(l)
    ensures Inv(TakeRow(l).0) && Inv(Collect(l, capacity).0)
    ensures TakeRow(l).1.Some? ==> RowOk(TakeRow(l).1.value)
  {
    hide TxInv, RxInv, RowOk;
  }

  /** Every call keeps the invariant, whatever its arguments. */
  lemma StepInv(l: Link, i: Input)
    requires Inv(l) && ValidInput(i)
    ensures Inv(Step(l, i).0)
  {
    hide TxInv, RxInv, SessionInv, RowsInv, Shape, Send, Beacon, Cancel, AdvanceTime, Hear, TakeRow, Collect, Reset;
    match i
    case Submit(message, entropy) => SendInv(l, message, entropy);
    case Announce(payload) => BeaconInv(l, payload);
    case Abort(reason) => CancelInv(l, reason);
    case Tick(time) => AdvanceTimeInv(l, time);
    case Receive(raw) => HearInv(l, raw);
    case Transmit => TakeInv(l, 0);
    case Take(capacity) => TakeInv(l, capacity);
    case Restart => ResetInv(l);
  }

  /** Every state any sequence of calls and any received bytes can reach. */
  lemma {:induction false} RunInv(cfg: Config, window: nat, inputs: seq<Input>)
    requires ValidConfig(cfg, window) && ValidInputs(inputs)
    ensures Inv(Run(Initial(cfg, window), inputs))
    decreases |inputs|
  {
    hide Inv, Initial, Step;
    if inputs == [] {
      InitialInv(cfg, window);
    } else {
      var n := |inputs| - 1;
      RunInv(cfg, window, inputs[..n]);
      StepInv(Run(Initial(cfg, window), inputs[..n]), inputs[n]);
    }
  }

  // A frame the link builds in some handler: from its session, its transfer, its reassembly, or a beacon payload.
  ghost predicate Builds(l: Link, f: Frame)
    requires Shape(l)
  {
    || f == HelloFrame(l)
    || f == HelloAckFrame(l, f.message)
    || (f.sequence < l.tx.total && f == DataFrame(l, f.sequence))
    || f == PartialAck(l.rx)
    || (1 <= l.rx.total && f == DeliveredAck(l.rx))
    || (f.value <= CANCEL_REASON_MAX && f == CancelFrame(l, f.value))
    || (1 <= |f.payload| <= MAX_BEACON_BYTES
      && f == Frame(BEACON, l.session.id, l.session.nextMessage, 0, 0, 0, f.payload))
  }

  predicate SegmentsFit(tx: Sender)
    requires SenderShape(tx)
  {
    forall i | 0 <= i < tx.total :: Fits(tx.segments[i], i, tx.total)
  }

  lemma FittingDataCanonical(l: Link, sequence: nat)
    requires Shape(l) && sequence < l.tx.total && SegmentsFit(l.tx)
    ensures Canonical(DataFrame(l, sequence))
  {
    assert Fits(l.tx.segments[sequence], sequence, l.tx.total);
  }

  lemma BuiltIsCanonical(l: Link, f: Frame)
    requires Shape(l) && SegmentsFit(l.tx) && Builds(l, f)
    ensures Canonical(f)
  {
    hide SegmentsFit, HelloFrame, HelloAckFrame, DataFrame, PartialAck, DeliveredAck, CancelFrame;
    HelloFramesCanonical(l, f.message);
    AckFramesCanonical(l.rx);
    if f.sequence < l.tx.total { FittingDataCanonical(l, f.sequence); }
    if f.value <= CANCEL_REASON_MAX { CancelFrameCanonical(l, f.value); }
  }

  // A state whose transfer, whatever became of session, window, timer, reassembly, caches and ring since l, is the one
  // of l, one just loaded, or none.
  ghost predicate Within(l: Link, m: Link)
    requires Shape(l)
  {
    && Shape(m)
    && (|| m.tx.total == 0
        || (m.tx.total == l.tx.total && m.tx.segments == l.tx.segments)
        || exists message: seq<byte> :: Loaded(l, m, message))
  }

  predicate Loaded(l: Link, m: Link, message: seq<byte>)
    requires Shape(l)
  {
    |message| <= MAX_MESSAGE_BYTES && m.tx.total == Load(l, message).tx.total
      && m.tx.segments == Load(l, message).tx.segments
  }

  lemma WithinFits(l: Link, m: Link)
    requires Inv(l) && Within(l, m)
    ensures Shape(m) && SegmentsFit(m.tx)
  {
    hide RxInv, SessionInv, RowsInv, Fits, Load;
    if message: seq<byte> :| Loaded(l, m, message) {
      LoadFits(l, message);
    }
  }

  lemma LoadFits(l: Link, message: seq<byte>)
    requires Shape(l) && |message| <= MAX_MESSAGE_BYTES
    ensures SegmentsFit(Load(l, message).tx)
  {
    hide Chunk, Transfer, SegmentCount, Fits;
    var total := SegmentCount(|message|).value;
    forall i | 0 <= i < total
      ensures Fits(Load(l, message).tx.segments[i], i, total)
    {
      ChunkFits(message, i);
    }
  }

  /** In every run, every frame a handler builds is canonical at the moment it builds it, so queue_frame refuses one
      only when the ring is full; and everything in the ring and in the reply caches is canonical too. */
  lemma FramesBuiltAreCanonical(cfg: Config, window: nat, inputs: seq<Input>, m: Link, f: Frame)
    requires ValidConfig(cfg, window) && ValidInputs(inputs)
    requires Within(Run(Initial(cfg, window), inputs), m) && Builds(m, f)
    ensures Canonical(f) && (QueueFrame(m, f).1 <==> |m.out| < OUT_QUEUE_FRAMES)
    ensures RowsInv(Run(Initial(cfg, window), inputs).out, Run(Initial(cfg, window), inputs).dup)
  {
    hide TxInv, RxInv, SessionInv, RowsInv, Run, Initial, Within, Builds, Canonical, SegmentsFit;
    RunInv(cfg, window, inputs);
    WithinFits(Run(Initial(cfg, window), inputs), m);
    BuiltIsCanonical(m, f);
  }
}
