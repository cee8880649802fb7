/**
  What one event can do to the sender and to the ring. Every frame that reaches the ring is derived from the state the
  event leaves (its origin), and DATA is only ever queued for segments that are neither acknowledged nor on air.
 */
module Effects {
  import opened Bytes
  import opened Wire
  import opened LinkSpec
  import opened Reachable
  import opened Invariant
  import Codec

  // ------------------------------------------------------------ appended rows

  predicate Extends(l: Link, r: Link) {
    |l.out| <= |r.out| && r.out[..|l.out|] == l.out
  }

  predicate IsData(row: Row) {
    row.Sent? && row.frame.kind == DATA
  }

  // Where a row appended between l and r comes from.
  ghost predicate Origin(l: Link, r: Link, row: Row)
    requires Shape(l) && Shape(r)
  {
    || (row.Sent? && FrameOrigin(l, r, row.frame))
    || Remembered(r.dup, row)
  }

  ghost predicate Remembered(dup: seq<DupEntry>, row: Row) {
    exists k :: 0 <= k < |dup| && dup[k].Held? && dup[k].ack == row
  }

  predicate FrameOrigin(l: Link, r: Link, f: Frame)
    requires Shape(l) && Shape(r)
  {
    || (f.kind == HELLO && r.session.pending && f == HelloFrame(r))
    || (f.kind == HELLO_ACK && r.session.open && r.session.helloAck == Some(f) && f == HelloAckFrame(r, f.message))
    || (f.kind == DATA && r.tx.active && f.sequence < r.tx.total && f == DataFrame(r, f.sequence))
    || (f.kind == ACK && r.rx.active && (f == PartialAck(r.rx) || (l.rx == r.rx && l.rx.ack == Some(f))))
    || f.kind == CANCEL
  }

  // A snapshot t of the sender, taken before anything was queued, leads to r: DATA rows appended since l are segments
  // that t had neither acknowledged nor on air, in increasing order, and r has them on air.
  predicate Sends(t: Sender, l: Link, r: Link)
    requires Shape(l) && Shape(r) && SenderShape(t)
  {
    && Extends(l, r)
    && r.tx == t.(started := r.tx.started, inflight := r.tx.inflight)
    && (forall i | 0 <= i < MAX_SEGMENTS :: t.inflight[i] ==> r.tx.inflight[i])
    && (forall k | |l.out| <= k < |r.out| :: IsData(r.out[k]) ==> FreshData(t, r, r.out[k].frame))
    && (forall j, k | |l.out| <= j < k < |r.out| ::
          IsData(r.out[j]) && IsData(r.out[k]) ==> r.out[j].frame.sequence < r.out[k].frame.sequence)
  }

  predicate FreshData(t: Sender, r: Link, f: Frame)
    requires Shape(r) && SenderShape(t)
  {
    && r.tx.active && f.sequence < t.total == r.tx.total && f == DataFrame(r, f.sequence)
    && !t.acked[f.sequence] && !t.inflight[f.sequence] && r.tx.inflight[f.sequence]
  }

  // No DATA was appended and the sender is as in t.
  predicate Silent(t: Sender, l: Link, r: Link) {
    Extends(l, r) && r.tx == t && forall k | |l.out| <= k < |r.out| :: !IsData(r.out[k])
  }

  ghost predicate Originated(l: Link, r: Link)
    requires Shape(l) && Shape(r)
  {
    Extends(l, r) && forall k | |l.out| <= k < |r.out| :: Origin(l, r, r.out[k])
  }

  // ------------------------------------------------------------ building blocks

  // start_or_resume_tx changes the ring, the marks and the timer only.
  lemma ResumeFrame(l: Link, retransmission: bool)
    requires Shape(l)
    ensures var r := StartOrResume(l, retransmission);
            r == l.(out := r.out, timer := r.timer, tx := l.tx.(started := r.tx.started, inflight := r.tx.inflight))
  {
    hide QueueFrom, Recompute;
    QueueFromFrame(l, l.tx.base, 0);
  }

  // m has queued no DATA since l, and now resumes the transfer.
  lemma ResumeSends(l: Link, m: Link, retransmission: bool)
    requires Shape(l) && Shape(m) && TxInv(m.tx) && Silent(m.tx, l, m)
    ensures Sends(m.tx, l, StartOrResume(m, retransmission))
  {
    hide QueueFrom, Recompute, DataFrame, Shape, Canonical, Fits;
    var r := StartOrResume(m, retransmission);
    QueueFromFrame(m, m.tx.base, 0);
    QueueFromQueued(m, m.tx.base, 0);
    assert r.out == QueueFrom(m, m.tx.base, 0).0.out;
    assert r.out[..|l.out|] == r.out[..|m.out|][..|l.out|];
    forall k | |l.out| <= k < |r.out| && IsData(r.out[k])
      ensures k >= |m.out| && FreshData(m.tx, r, r.out[k].frame)
    {
      if k >= |m.out| { ResumedData(m, r, r.out[k].frame); }
    }
  }

  lemma ResumedData(m: Link, r: Link, f: Frame)
    requires Shape(m) && Shape(r) && TxInv(m.tx) && NewData(m, QueueFrom(m, m.tx.base, 0).0, f, m.tx.base)
    requires r == m.(out := r.out, timer := r.timer, tx := m.tx.(started := r.tx.started, inflight := r.tx.inflight))
    requires r.tx.inflight == QueueFrom(m, m.tx.base, 0).0.tx.inflight
    ensures FreshData(m.tx, r, f)
  {
    hide QueueFrom, Fits;
  }

  lemma ResumeOriginated(l: Link, m: Link, retransmission: bool)
    requires Shape(l) && Shape(m) && TxInv(m.tx) && Originated(l, m)
    ensures Originated(l, StartOrResume(m, retransmission))
  {
    hide StartOrResume, DataFrame, HelloFrame, HelloAckFrame, PartialAck, Fits, TxInv;
    var r := StartOrResume(m, retransmission);
    ResumeFrame(m, retransmission);
    ResumeSends(m, m, retransmission);
    ResumeOnlyData(m, retransmission);
    assert r.out[..|l.out|] == r.out[..|m.out|][..|l.out|];
    forall k | |l.out| <= k < |r.out|
      ensures Origin(l, r, r.out[k])
    {
      if k < |m.out| {
        assert r.out[k] == r.out[..|m.out|][k];
        OriginKept(l, m, r, r.out[k]);
      } else {
        assert FreshData(m.tx, r, r.out[k].frame);
      }
    }
  }

  lemma ResumeOnlyData(m: Link, retransmission: bool)
    requires Shape(m) && TxInv(m.tx)
    ensures var r := StartOrResume(m, retransmission);
            |m.out| <= |r.out| && forall k | |m.out| <= k < |r.out| :: IsData(r.out[k])
  {
    hide QueueFrom, Recompute, Canonical, Fits;
    QueueFromQueued(m, m.tx.base, 0);
  }

  // Later events of the same step that keep what origins are derived from keep the origins.
  lemma OriginKept(l: Link, m: Link, r: Link, row: Row)
    requires Shape(l) && Shape(m) && Shape(r) && Origin(l, m, row)
    requires r == m.(out := r.out, timer := r.timer, tx := m.tx.(started := r.tx.started, inflight := r.tx.inflight))
    ensures Origin(l, r, row)
  {
    hide PartialAck;
  }

  // ------------------------------------------------------------ receive handlers

  lemma PartialAckEffect(l: Link, m: Link)
    requires Shape(l) && Shape(m) && l.out == m.out && m.rx.active
    ensures Originated(l, QueuePartialAck(m)) && Silent(m.tx, l, QueuePartialAck(m))
  {
    hide FirstClear, Bitmap, Canonical;
    AckFramesCanonical(m.rx);
    var acked := m.(rx := m.rx.(ack := Some(PartialAck(m.rx))));
  }

  lemma DeliverEffect(l: Link, m: Link, message: seq<byte>)
    requires Shape(l) && Shape(m) && l.out == m.out && 1 <= m.rx.total
    ensures Originated(l, Deliver(m, message).0) && Silent(m.tx, l, Deliver(m, message).0)
  {
    hide Canonical, DupVictim, ClearRx;
    AckFramesCanonical(m.rx);
    var r := Deliver(m, message).0;
    var v := DupVictim(m.dup, m.timer.now, m.rx.session, m.rx.message, 0, None);
    assert r.dup[v].Held? && r.dup[v].ack == Sent(DeliveredAck(m.rx));
    assert Remembered(r.dup, Sent(DeliveredAck(m.rx)));
  }

  lemma FinishRxEffect(l: Link, m: Link)
    requires Shape(l) && Shape(m) && l.out == m.out && 1 <= m.rx.total
    ensures Originated(l, FinishRx(m).0) && Silent(m.tx, l, FinishRx(m).0)
  {
    hide Shape, Accepted, Deliver, ClearRx, Origin, IsData;
    if Accepted(m).Some? { DeliverEffect(l, m, Accepted(m).value); }
  }

  lemma PlaceSegmentEffect(l: Link, m: Link, f: Frame)
    requires Shape(l) && Shape(m) && l.out == m.out && m.rx.active
    requires m.rx == l.rx || m.rx.ack.None?
    requires m.rx.ack.Some? ==> RxAck(m.rx, m.rx.ack.value)
    ensures Originated(l, PlaceSegment(m, f).0) && Silent(m.tx, l, PlaceSegment(m, f).0)
  {
    hide FinishRx, QueuePartialAck, AckDue, Canonical;
    if f.sequence < m.rx.total {
      if m.rx.received[f.sequence] {
        PartialAckEffect(l, m);
      } else {
        var stored := m.(rx := Stored(m.rx, f));
        FinishRxEffect(l, stored);
        PartialAckEffect(l, stored);
      }
    }
  }

  lemma StoreSegmentEffect(l: Link, m: Link, f: Frame)
    requires Shape(l) && Shape(m) && l.out == m.out && f.kind == DATA && Canonical(f)
    requires m.rx == l.rx || m.rx.ack.None?
    requires m.rx.ack.Some? ==> m.rx.active && RxAck(m.rx, m.rx.ack.value)
    ensures Originated(l, StoreSegment(m, f).0) && Silent(m.tx, l, StoreSegment(m, f).0)
  {
    hide PlaceSegment, Canonical, Origin, IsData, RxAck;
    var begun := if m.rx.active then m else m.(rx := Begun(m.rx, f));
    if m.rx.active || !m.delivery.ready {
      PlaceSegmentEffect(l, begun, f);
    }
  }

  lemma HandleDataEffect(l: Link, f: Frame)
    requires Inv(l) && f.kind == DATA && Canonical(f)
    ensures Originated(l, HandleData(l, f).0) && Silent(l.tx, l, HandleData(l, f).0)
  {
    hide TxInv, SessionInv, RowsInv, Canonical, Count, Fits, StoreSegment, DupLookup, Remembered;
    var (dup, cached) := DupLookup(l.dup, l.timer.now, f.session, f.message);
    var looked := l.(dup := dup);
    LookedInv(l, f.session, f.message);
    if cached.Some? {
      DupLookupHit(l.dup, l.timer.now, f.session, f.message);
    } else if l.rx.active && f.message != l.rx.message {
      StoreSegmentEffect(l, looked.(rx := ClearRx(l.rx)), f);
    } else {
      StoreSegmentEffect(l, looked, f);
    }
  }

  // A hit stays in the cache.
  lemma {:induction false} DupLookupHit(dup: seq<DupEntry>, now: nat, session: u32, message: u16)
    ensures var r := DupLookup(dup, now, session, message); r.1.Some? ==> Remembered(r.0, r.1.value)
    decreases |dup|
  {
    if dup != [] {
      var r := DupLookup(dup, now, session, message);
      if Live(dup[0], now) && dup[0].session == session && dup[0].message == message {
        assert r.0[0].Held? && r.0[0].ack == r.1.value;
      } else {
        DupLookupHit(dup[1..], now, session, message);
        var rest := DupLookup(dup[1..], now, session, message);
        if rest.1.Some? {
          var k :| 0 <= k < |rest.0| && rest.0[k].Held? && rest.0[k].ack == rest.1.value;
          assert r.0[k + 1] == rest.0[k];
        }
      }
    }
  }

  // A partial acknowledgement of the transfer under way.
  predicate Matches(l: Link, f: Frame) {
    && l.tx.active && f.kind == ACK && !Flagged(f)
    && f.session == l.session.id && f.message == l.tx.message && f.sequence <= l.tx.total
  }

  lemma HandleAckEffect(l: Link, f: Frame) returns (t: Sender)
    requires Inv(l) && f.kind == ACK
    ensures SenderShape(t)
    ensures Originated(l, HandleAck(l, f).0) && Sends(t, l, HandleAck(l, f).0)
    ensures t == l.tx || !t.active || (Matches(l, f) && t == MarkAcked(l.tx, f))
  {
    hide TxInv, SessionInv, RowsInv, RxInv, Fits, StartOrResume, Recompute, AckedAfter, InflightAfter, Origin, IsData;
    t := l.tx;
    if l.tx.active && f.session == l.session.id && f.message == l.tx.message {
      if Flagged(f) {
        if f.sequence == l.tx.total { t := ClearTx(l.tx).(status := Success); }
      } else if f.sequence <= l.tx.total {
        MarkAckedInv(l.tx, f);
        t := MarkAcked(l.tx, f);
        var marked := l.(tx := t, timer := Recompute(l.timer, l.cfg.airtime, l.window));
        ResumeSends(l, marked, false);
        ResumeOriginated(l, marked, false);
        RetimedEffect(t, l, StartOrResume(marked, false), HandleAck(l, f).0);
      }
    }
  }

  lemma RetimedEffect(t: Sender, l: Link, m: Link, r: Link)
    requires Shape(l) && Shape(m) && Shape(r) && SenderShape(t)
    requires Originated(l, m) && Sends(t, l, m)
    requires r == m.(timer := r.timer, heard := r.heard)
    ensures Originated(l, r) && Sends(t, l, r)
  {
    hide PartialAck, Shape;
    forall k | |l.out| <= k < |r.out|
      ensures Origin(l, r, r.out[k])
    {
      assert Origin(l, m, m.out[k]);
    }
    forall k | |l.out| <= k < |r.out| && IsData(r.out[k])
      ensures FreshData(t, r, r.out[k].frame)
    {
      assert FreshData(t, m, m.out[k].frame);
    }
  }

  lemma AnsweredEffect(l: Link, m: Link, message: u16)
    requires Shape(l) && Inv(m) && m.out == l.out && m.session.helloAck.None?
    ensures var r := Answered(m, HelloAckFrame(m, message)); Originated(l, r) && Sends(m.tx, l, r)
  {
    hide TxInv, SessionInv, RowsInv, RxInv, Canonical, HelloFrame, PartialAck, StartOrResume, Recompute, IsData,
      Remembered, DataFrame;
    var reply := HelloAckFrame(m, message);
    var begun := QueueRow(m, Sent(reply))
      .(session := m.session.(helloAck := Some(reply), open := true),
        timer := Recompute(m.timer, m.cfg.airtime, m.window));
    assert HelloAckFrame(begun, message) == reply;
    ReplyQueued(l, begun, reply);
    if m.tx.active && !m.tx.started {
      ResumeSends(l, begun, false);
      ResumeOriginated(l, begun, false);
    }
  }

  lemma ReplyQueued(l: Link, r: Link, f: Frame)
    requires Shape(l) && Shape(r) && (r.out == l.out || r.out == l.out + [Sent(f)])
    requires f.kind == HELLO_ACK && r.session.open && r.session.helloAck == Some(f) && f == HelloAckFrame(r, f.message)
    ensures Originated(l, r) && Silent(r.tx, l, r)
  {
    hide HelloFrame, HelloAckFrame, PartialAck, DataFrame, Remembered;
  }

  lemma AdoptSessionEffect(l: Link, m: Link, f: Frame)
    requires Shape(l) && Inv(m) && m.out == l.out && f.kind == HELLO && Canonical(f)
    requires !m.session.pending && !m.rx.active
    ensures Originated(l, AdoptSession(m, f).0) && Sends(m.tx, l, AdoptSession(m, f).0)
  {
    hide TxInv, RxInv, SessionInv, RowsInv, Shape, Canonical, AdoptSession, HelloAckFrame, Answered, Origin, Sends;
    AdoptUncached(m, f);
    NamedInv(m, f);
    AnsweredEffect(l, Named(Uncached(m), f), f.message);
  }

  lemma CollideEffect(l: Link, f: Frame) returns (t: Sender)
    requires Inv(l) && l.session.pending && f.kind == HELLO && Canonical(f)
    ensures SenderShape(t)
    ensures Originated(l, Collide(l, f).0) && Sends(t, l, Collide(l, f).0)
    ensures t == l.tx || !t.active
  {
    hide TxInv, RxInv, RowsInv, SessionInv, Canonical, AdoptSession, Origin, ClearTx;
    t := l.tx;
    if Below(f.session, l.session.id) {
      t := Yield(l).tx;
      YieldInv(l);
      ClearedRx(l);
      AdoptSessionEffect(l, Yield(l), f);
    }
  }

  // No reassembly is under way while an opening is.
  lemma ClearedRx(l: Link)
    requires Inv(l) && (l.session.pending || !l.session.open)
    ensures !l.rx.active
  {
  }

  lemma ReplaceEffect(l: Link, f: Frame)
    requires Inv(l) && !l.session.pending && f.kind == HELLO && Canonical(f)
    ensures Originated(l, Replace(l, f).0) && Sends(l.tx, l, Replace(l, f).0)
  {
    hide TxInv, RxInv, SessionInv, RowsInv, Canonical, AdoptSession, Origin, Sends, NoDuplicates, NoneSet, NoSegments;
    ClearedRxInv(l);
    VacatedInv(l.(rx := ClearRx(l.rx)));
    AdoptSessionEffect(l, l.(rx := ClearRx(l.rx), dup := NoDuplicates()), f);
  }

  lemma HandleHelloEffect(l: Link, f: Frame) returns (t: Sender)
    requires Inv(l) && f.kind == HELLO && Canonical(f)
    ensures SenderShape(t)
    ensures Originated(l, HandleHello(l, f).0) && Sends(t, l, HandleHello(l, f).0)
    ensures t == l.tx || !t.active
  {
    hide TxInv, RxInv, RowsInv, Canonical, AdoptSession, Collide, Replace, ReplayHelloAck, Origin;
    t := l.tx;
    if CapabilityProfile(f.value) != l.cfg.profile {
    } else if l.session.pending {
      t := CollideEffect(l, f);
    } else if l.session.open && f.session == l.session.id {
      ReplayEffect(l);
    } else if l.session.open && l.cfg.role.Initiator? {
    } else if l.session.open {
      ReplaceEffect(l, f);
    } else {
      ClearedRx(l);
      AdoptSessionEffect(l, l, f);
    }
  }

  lemma YieldInv(l: Link)
    requires Inv(l) && l.session.pending
    ensures Inv(Yield(l)) && !Yield(l).tx.active
  {
    hide TxInv, RxInv, RowsInv;
    ClearedTxInv(l, l.tx.status);
  }

  lemma ReplayEffect(l: Link)
    requires Inv(l) && l.session.open
    ensures Originated(l, ReplayHelloAck(l)) && Sends(l.tx, l, ReplayHelloAck(l))
  {
    hide TxInv, RxInv, RowsInv, Canonical, Origin;
    if l.session.helloAck.Some? {
      var f := l.session.helloAck.value;
      assert HelloAckFrame(QueueRow(l, Sent(f)), f.message) == f;
      ReplyQueued(l, QueueRow(l, Sent(f)), f);
    }
  }

  lemma HandleHelloAckEffect(l: Link, f: Frame)
    requires Inv(l)
    ensures Originated(l, HandleHelloAck(l, f).0) && Sends(l.tx, l, HandleHelloAck(l, f).0)
  {
    hide TxInv, RxInv, RowsInv, StartOrResume, Recompute, Origin, FreshData, IsData;
    if HandleHelloAck(l, f).1 == Success {
      var window := Negotiated(l, f);
      var begun := l.(session := l.session.(pending := false, open := true), window := window,
                       timer := Recompute(l.timer, l.cfg.airtime, window).(deadline := None));
      if l.tx.active {
        ResumeSends(l, begun, false);
        ResumeOriginated(l, begun, false);
      }
    }
  }

  // An event that touches neither the ring nor the sender.
  lemma Quiet(l: Link, r: Link)
    requires Shape(l) && Shape(r) && r.out == l.out
    ensures Originated(l, r) && Sends(r.tx, l, r)
  {
  }

  lemma HandleFrameEffect(l: Link, f: Frame) returns (t: Sender)
    requires Inv(l) && Canonical(f)
    ensures SenderShape(t)
    ensures Originated(l, HandleFrame(l, f).0) && Sends(t, l, HandleFrame(l, f).0)
    ensures t == l.tx || !t.active || (Matches(l, f) && t == MarkAcked(l.tx, f))
  {
    hide TxInv, RxInv, SessionInv, RowsInv, HandleHello, HandleHelloAck, HandleData, HandleAck, Canonical, Origin,
      MarkAcked, DupLookup, DupStore, ClearTx, ClearRx;
    t := l.tx;
    if f.kind == HELLO {
      t := HandleHelloEffect(l, f);
    } else if f.kind == HELLO_ACK {
      HandleHelloAckEffect(l, f);
    } else if f.kind == DATA {
      HandleDataEffect(l, f);
    } else if f.kind == ACK {
      t := HandleAckEffect(l, f);
    } else {
      var r := HandleFrame(l, f).0;
      t := r.tx;
      CancelOrBeacon(l, f);
      Quiet(l, r);
    }
  }

  lemma CancelOrBeacon(l: Link, f: Frame)
    requires Shape(l)
    ensures HandleCancel(l, f).0.out == l.out && (HandleCancel(l, f).0.tx == l.tx || !HandleCancel(l, f).0.tx.active)
    ensures HandleBeacon(l, f).0.out == l.out && HandleBeacon(l, f).0.tx == l.tx
  {
  }

  // ------------------------------------------------------------ calls and timers

  lemma DispatchEffect(l: Link, m: Link, entropy: Option<Entropy>) returns (t: Sender)
    requires Shape(l) && Inv(m) && m.out == l.out
    requires entropy.Some? ==> |entropy.value.challenge| == CHALLENGE_BYTES
    ensures SenderShape(t)
    ensures Originated(l, Dispatch(m, entropy).0) && Sends(t, l, Dispatch(m, entropy).0)
    ensures t == m.tx || !t.active
  {
    hide TxInv, RxInv, SessionInv, RowsInv, Origin, FreshData, IsData, StartOrResume, OpenSession;
    t := m.tx;
    if m.session.open {
      ResumeSends(l, m, false);
      ResumeOriginated(l, m, false);
    } else if m.cfg.role.Initiator? && !m.session.pending {
      var begun := OpenSession(m, entropy);
      OpenSessionEffect(l, m, entropy);
      if begun.1 != Success {
        t := ClearTx(begun.0.tx).(status := begun.1);
      }
    }
  }

  lemma OpenSessionEffect(l: Link, m: Link, entropy: Option<Entropy>)
    requires Shape(l) && Shape(m) && m.out == l.out
    requires entropy.Some? ==> |entropy.value.challenge| == CHALLENGE_BYTES
    ensures Originated(l, OpenSession(m, entropy).0) && Silent(m.tx, l, OpenSession(m, entropy).0)
    ensures OpenSession(m, entropy).1 != Success ==> OpenSession(m, entropy).0.out == l.out
  {
    hide DataFrame, HelloAckFrame, PartialAck, Canonical, Recompute;
  }

  lemma SendEffect(l: Link, message: seq<byte>, entropy: Option<Entropy>) returns (t: Sender)
    requires Inv(l)
    requires entropy.Some? ==> |entropy.value.challenge| == CHALLENGE_BYTES
    ensures SenderShape(t)
    ensures Originated(l, Send(l, message, entropy).0) && Sends(t, l, Send(l, message, entropy).0)
    ensures t == l.tx || !t.active || (!l.tx.active && |message| <= l.cfg.maxMessage && t == Load(l, message).tx)
  {
    hide TxInv, RxInv, SessionInv, RowsInv, Origin, Sends, Dispatch;
    t := l.tx;
    if |message| <= l.cfg.maxMessage && !l.tx.active {
      LoadInv(l, message);
      t := DispatchEffect(l, Load(l, message), entropy);
    } else {
      Unchanged(l);
    }
  }

  lemma Unchanged(l: Link)
    requires Shape(l)
    ensures Originated(l, l) && Sends(l.tx, l, l)
  {
  }

  lemma FailTxEffect(l: Link, status: Result, reason: u16)
    requires Shape(l)
    ensures var r := FailTx(l, status, reason); Originated(l, r) && Silent(r.tx, l, r) && !r.tx.active
  {
    hide DataFrame, HelloFrame, HelloAckFrame, PartialAck, Canonical;
  }

  // An expiry of the DATA deadline that retransmits.
  predicate Retries(l: Link, time: nat) {
    Due(l, time) && !l.session.pending && l.tx.active && l.tx.started && l.tx.retries < l.cfg.maxRetries
  }

  lemma AdvanceTimeEffect(l: Link, time: nat) returns (t: Sender)
    requires Inv(l)
    ensures SenderShape(t)
    ensures Originated(l, AdvanceTime(l, time)) && Sends(t, l, AdvanceTime(l, time))
    ensures if Retries(l, time) then t == Expired(l).tx else t == l.tx || !t.active
  {
    hide TxInv, RxInv, SessionInv, RowsInv, Origin, FreshData, ExpireHello, FailTx, StartOrResume, BackOff;
    t := l.tx;
    var fired := l.(timer := l.timer.(now := if time > l.timer.now then time else l.timer.now, deadline := None));
    RetimedInv(l, fired.timer);
    var r := AdvanceTime(l, time);
    if !Due(l, time) {
      Quiet(l, r);
    } else if l.session.pending {
      t := r.tx;
      ExpireHelloEffect(l, fired);
    } else if l.tx.active && l.tx.started {
      if l.tx.retries >= l.cfg.maxRetries {
        t := r.tx;
        FailTxEffect(fired, Timeout, CANCEL_TIMEOUT);
        ShiftEffect(t, fired, l, r);
      } else {
        ExpiredInv(fired);
        t := Expired(fired).tx;
        Quiet(fired, Expired(fired));
        ResumeSends(Expired(fired), Expired(fired), true);
        ResumeOriginated(Expired(fired), Expired(fired), true);
        ShiftEffect(t, Expired(fired), l, r);
      }
    } else {
      Quiet(l, r);
    }
  }

  // Effects depend on the earlier state only through its ring and its reassembly.
  lemma ShiftEffect(t: Sender, m: Link, l: Link, r: Link)
    requires Shape(l) && Shape(m) && Shape(r) && SenderShape(t)
    requires m.out == l.out && m.rx == l.rx
    requires Originated(m, r) && Sends(t, m, r)
    ensures Originated(l, r) && Sends(t, l, r)
  {
    hide PartialAck, DataFrame, HelloFrame, HelloAckFrame, IsData, FreshData, Shape, Remembered;
    forall k | |l.out| <= k < |r.out|
      ensures Origin(l, r, r.out[k])
    {
      assert Origin(m, r, r.out[k]);
    }
  }

  lemma ExpireHelloEffect(l: Link, m: Link)
    requires Shape(l) && Shape(m) && m.out == l.out && m.session.pending
    ensures var r := ExpireHello(m); Originated(l, r) && Sends(r.tx, l, r) && (r.tx == m.tx || !r.tx.active)
  {
    hide DataFrame, HelloAckFrame, PartialAck, Canonical, BackOff;
  }

  lemma CancelEffect(l: Link, reason: u16)
    requires Shape(l)
    ensures var r := Cancel(l, reason).0; Originated(l, r) && Sends(r.tx, l, r) && (r.tx == l.tx || !r.tx.active)
  {
    hide DataFrame, HelloFrame, HelloAckFrame, PartialAck, Canonical;
  }

  lemma BeaconEffect(l: Link, payload: seq<byte>)
    requires Shape(l)
    ensures var r := Beacon(l, payload).0;
            Sends(l.tx, l, r) && forall k | |l.out| <= k < |r.out| :: r.out[k].Sent? && r.out[k].frame.kind == BEACON
  {
    hide DataFrame, Canonical;
  }

  lemma NotedInv(l: Link, heard: Option<Heard>)
    requires Inv(l)
    ensures Inv(l.(heard := heard))
  {
    hide TxInv, RxInv, RowsInv;
  }

  // A link that remembers a frame as the last one heard.
  function Noted(l: Link, raw: Codec.Raw): (r: Link)
    requires Shape(l)
    ensures Shape(r)
  {
    l.(heard := Some(Heard(raw, l.timer.now)))
  }

  // A frame just encoded gets past the repeat guard unless it is the last one heard, and is decoded as it was.
  // handle_frame calls the handler of the frame's type.
  lemma Handled(l: Link, f: Frame)
    requires Shape(l) && Canonical(f)
    ensures f.kind == HELLO ==> HandleFrame(l, f) == HandleHello(l, f)
    ensures f.kind == HELLO_ACK ==> HandleFrame(l, f) == HandleHelloAck(l, f)
    ensures f.kind == DATA ==> HandleFrame(l, f) == HandleData(l, f)
    ensures f.kind == ACK ==> HandleFrame(l, f) == HandleAck(l, f)
    ensures f.kind == BEACON ==> HandleFrame(l, f) == HandleBeacon(l, f)
  {
    hide Shape, Canonical, HandleHello, HandleHelloAck, HandleData, HandleAck, HandleCancel, HandleBeacon;
  }

  lemma HearsEncoded(l: Link, f: Frame)
    requires Shape(l) && Canonical(f) && (l.heard.Some? ==> l.heard.value.raw != Codec.Encode(f))
    ensures Hear(l, Codec.Encode(f)) == HandleFrame(Noted(l, Codec.Encode(f)), f)
  {
    hide HandleFrame, Codec.Decode, Codec.Encode, Canonical;
    Codec.DecodeEncode(f);
  }

  predicate Acknowledges(l: Link, raw: Codec.Raw) {
    Codec.Decode(raw).Good? && Matches(l, Codec.Decode(raw).frame)
  }

  lemma HearEffect(l: Link, raw: Codec.Raw) returns (t: Sender)
    requires Inv(l)
    ensures SenderShape(t)
    ensures Originated(l, Hear(l, raw).0) && Sends(t, l, Hear(l, raw).0)
    ensures t == l.tx || !t.active || (Acknowledges(l, raw) && t == MarkAcked(l.tx, Codec.Decode(raw).frame))
  {
    hide TxInv, RxInv, SessionInv, RowsInv, Origin, Sends, HandleFrame, MarkAcked, Canonical, Codec.Decode;
    var noted := l.(heard := Some(Heard(raw, l.timer.now)));
    t := l.tx;
    Quiet(l, l);
    Quiet(l, noted);
    var repeated := l.heard.Some? && l.heard.value.raw == raw && l.timer.now - l.heard.value.at < 2 * l.cfg.airtime;
    if !repeated && Codec.Decode(raw).Good? {
      NotedInv(l, noted.heard);
      t := HandleFrameEffect(noted, Codec.Decode(raw).frame);
      ShiftEffect(t, noted, l, Hear(l, raw).0);
    }
  }

  // The events that add to the ring rather than empty it.
  predicate Adds(i: Input) {
    !i.Transmit? && !i.Restart?
  }

  // What an event made of the sender before anything was queued.
  ghost predicate Prepared(l: Link, i: Input, t: Sender)
    requires Shape(l) && SenderShape(t)
  {
    if i.Tick? && Retries(l, i.time) then t == Expired(l).tx
    else
      || t == l.tx
      || !t.active
      || (i.Submit? && !l.tx.active && |i.message| <= l.cfg.maxMessage && t == Load(l, i.message).tx)
      || (i.Receive? && Acknowledges(l, i.raw) && t == MarkAcked(l.tx, Codec.Decode(i.raw).frame))
  }

  /** Every event leaves the ring as it was followed by frames derived from the new state, among them DATA only for
      segments of the current transfer that were neither acknowledged nor on air. */
  lemma StepEffect(l: Link, i: Input) returns (t: Sender)
    requires Inv(l) && ValidInput(i) && Adds(i)
    ensures SenderShape(t) && Prepared(l, i, t)
    ensures Sends(t, l, Step(l, i).0)
    ensures if i.Announce? then forall k | |l.out| <= k < |Step(l, i).0.out| ::
      Step(l, i).0.out[k].Sent? && Step(l, i).0.out[k].frame.kind == BEACON
            else Originated(l, Step(l, i).0)
  {
    hide TxInv, RxInv, SessionInv, RowsInv, Send, Beacon, Cancel, AdvanceTime, Hear, TakeRow, Collect, Reset,
      Origin, Sends, Retries, Expired, MarkAcked, Load;
    t := l.tx;
    match i
    case Submit(message, entropy) => t := SendEffect(l, message, entropy);
    case Announce(payload) => BeaconEffect(l, payload);
    case Abort(reason) => t := Cancel(l, reason).0.tx; CancelEffect(l, reason);
    case Tick(time) => t := AdvanceTimeEffect(l, time);
    case Receive(raw) => t := HearEffect(l, raw);
    case Take(capacity) => CollectEffect(l, capacity);
  }

  lemma CollectEffect(l: Link, capacity: nat)
    requires Shape(l)
    ensures Originated(l, Collect(l, capacity).0) && Sends(l.tx, l, Collect(l, capacity).0)
  {
    hide Origin, FreshData;
    Quiet(l, Collect(l, capacity).0);
  }

  // What an event leaves is a state its handlers can be in.
  lemma StepWithin(l: Link, i: Input)
    requires Inv(l) && ValidInput(i)
    ensures Within(l, Step(l, i).0)
  {
    hide TxInv, RxInv, SessionInv, RowsInv, Step, Originated, FreshData, IsData, Retries, Load, AckedAfter,
      InflightAfter, BackOff;
    var r := Step(l, i).0;
    StepInv(l, i);
    if Adds(i) {
      var t := StepEffect(l, i);
      if t.active {
        if i.Submit? && !l.tx.active {
          assert t == Load(l, i.message).tx;
          assert Loaded(l, r, i.message);
        }
      } else {
        InactiveEmpty(r);
      }
    } else {
      EmptyingTotal(l, i);
    }
  }

  lemma InactiveEmpty(l: Link)
    requires Inv(l) && !l.tx.active
    ensures l.tx.total == 0
  {
  }

  lemma EmptyingTotal(l: Link, i: Input)
    requires Shape(l) && (i.Transmit? || i.Restart?)
    ensures var r := Step(l, i).0; |r.out| <= |l.out| && (r.tx == l.tx || (r.tx.total == 0 && !r.tx.active))
  {
    hide Shape, NoneSet, NoSegments, NoDuplicates, Recompute, Send, Beacon, Cancel, AdvanceTime, Hear, Collect;
  }
}
