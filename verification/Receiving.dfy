/**
  What one event can do to the reassembly record and to the replies the receiver remembers.
 */
module Receiving {
  import opened Bytes
  import opened Wire
  import opened LinkSpec
  import opened Reachable
  import opened Invariant
  import opened Effects
  import opened DupCache
  import opened Integrity
  import Codec
  import Timers

  // The cached reply is the old one or the partial acknowledgement of the new state.
  predicate AckStep(earlier: Option<Frame>, rx: Reassembly)
    requires ReassemblyShape(rx)
  {
    rx.ack == earlier || rx.ack == Some(PartialAck(rx))
  }

  // The same segments as before.
  predicate SameSegments(rx: Reassembly, after: Reassembly)
    requires ReassemblyShape(after)
  {
    after == rx.(ack := after.ack) && AckStep(rx.ack, after)
  }

  // One more segment.
  predicate OneMore(rx: Reassembly, f: Frame, after: Reassembly)
    requires ReassemblyShape(rx) && ReassemblyShape(after)
  {
    && f.sequence < rx.total == f.value && !rx.received[f.sequence]
    && after == Stored(rx, f).(ack := after.ack) && AckStep(rx.ack, after)
  }

  // The acknowledgement remembered for a delivered message.
  function Receipt(f: Frame): Frame {
    Frame(ACK, f.session, f.message, f.value, 0, FLAG_ACK_DELIVERED, [])
  }

  predicate Remembers(before: seq<DupEntry>, after: seq<DupEntry>, news: Option<Row>, f: Frame) {
    forall k | 0 <= k < |after| && after[k].Held? ::
      || after[k] in before
      || (news == Some(after[k].ack) && after[k].session == f.session && after[k].message == f.message)
  }

  // ------------------------------------------------------------ DATA

  lemma FinishRxRecord(l: Link)
    requires Shape(l) && 1 <= l.rx.total
    ensures var r := FinishRx(l);
      && !r.0.rx.active
      && r.0.dup == if r.1 == Delivered
        then DupStore(l.dup, l.timer.now, l.cfg.airtime, l.rx.session, l.rx.message, Sent(DeliveredAck(l.rx)))
                    else l.dup
  {
    hide Accepted, Canonical, DeliveredAck, DupVictim, NoneSet, NoSegments;
  }

  // What placing a segment does, in its three cases.
  predicate Placed(m: Link, f: Frame, r: (Link, Result))
    requires Shape(m) && Shape(r.0) && f.sequence < m.rx.total && 0 < |m.dup|
  {
    if m.rx.received[f.sequence] then SameSegments(m.rx, r.0.rx) && r.0.dup == m.dup && r.1 != Delivered
    else if m.rx.count + 1 != m.rx.total then OneMore(m.rx, f, r.0.rx) && r.0.dup == m.dup && r.1 != Delivered
    else
      && !r.0.rx.active
      && r.0.dup == if r.1 == Delivered
        then DupStore(m.dup, m.timer.now, m.cfg.airtime, m.rx.session, m.rx.message, Sent(DeliveredAck(m.rx)))
                    else m.dup
  }

  lemma QueuePartialAckRecord(m: Link)
    requires Shape(m)
    ensures var r := QueuePartialAck(m);
      r.dup == m.dup && SameSegments(m.rx, r.rx) && r.rx == m.rx.(ack := Some(PartialAck(r.rx)))
  {
    hide FirstClear, Bitmap, Canonical;
    AckFramesCanonical(m.rx);
  }

  lemma PlaceSegmentRecord(m: Link, f: Frame)
    requires Shape(m) && f.sequence < m.rx.total == f.value
    ensures Placed(m, f, PlaceSegment(m, f))
  {
    hide FinishRx, QueuePartialAck, AckDue, PartialAck, DupStore, Canonical;
    if m.rx.received[f.sequence] {
      QueuePartialAckRecord(m);
    } else {
      var stored := m.(rx := Stored(m.rx, f));
      FinishRxRecord(stored);
      QueuePartialAckRecord(stored);
    }
  }

  // What a DATA frame does to the receiver.
  ghost predicate DataStep(l: Link, f: Frame, r: (Link, Result))
    requires Shape(l) && Shape(r.0) && f.kind == DATA && Canonical(f)
  {
    && (r.1 == Delivered ==> l.session.open && f.session == l.session.id && !r.0.rx.active)
    && (|| SameSegments(l.rx, r.0.rx)
        || !r.0.rx.active
        || (&& l.session.open && f.session == l.session.id && r.0.rx.active && OneMore(Continued(l, f), f, r.0.rx)
            && (l.delivery.ready ==> l.rx.active && f.message == l.rx.message)))
    && Remembers(l.dup, r.0.dup, if r.1 == Delivered then Some(Sent(Receipt(f))) else None, f)
  }

  lemma {:induction false} PrunedRemembers(before: seq<DupEntry>, after: seq<DupEntry>, now: nat, f: Frame)
    requires Pruned(before, after, now)
    ensures Remembers(before, after, None, f)
  {
    hide Live;
    forall k | 0 <= k < |after| && after[k].Held?
      ensures after[k] in before
    {
      assert after[k] == before[k];
    }
  }

  lemma StoredRemembers(before: seq<DupEntry>, pruned: seq<DupEntry>, now: nat, airtime: nat, f: Frame)
    requires Pruned(before, pruned, now) && 0 < |pruned|
    ensures Remembers(before, DupStore(pruned, now, airtime, f.session, f.message, Sent(Receipt(f))),
      Some(Sent(Receipt(f))), f)
  {
    hide Live, DupVictim;
    PrunedRemembers(before, pruned, now, f);
    var r := DupStore(pruned, now, airtime, f.session, f.message, Sent(Receipt(f)));
    forall k | 0 <= k < |r| && r[k].Held?
      ensures r[k] in before || (r[k].ack == Sent(Receipt(f)) && r[k].session == f.session && r[k].message == f.message)
    {
      if r[k] == pruned[k] { assert pruned[k].Held?; }
    }
  }

  // Placing a segment of f's message after the lookup missed.
  lemma PlacedData(l: Link, m: Link, f: Frame)
    requires Inv(l) && f.kind == DATA && Canonical(f) && l.session.open && f.session == l.session.id
    requires Shape(m) && m.rx == Continued(l, f) && m.rx.active && f.sequence < m.rx.total == f.value
    requires Pruned(l.dup, m.dup, m.timer.now)
    requires m.rx.session == f.session && m.rx.message == f.message
    requires l.delivery.ready ==> l.rx.active && f.message == l.rx.message
    ensures DataStep(l, f, PlaceSegment(m, f))
  {
    hide TxInv, RxInv, SessionInv, RowsInv, Canonical, PlaceSegment, PartialAck, DupStore, NoneSet, NoSegments, Live,
      Begun;
    PlaceSegmentRecord(m, f);
    var r := PlaceSegment(m, f);
    PrunedRemembers(l.dup, m.dup, m.timer.now, f);
    ReceiptIs(m.rx, f);
    if r.1 == Delivered {
      StoredRemembers(l.dup, m.dup, m.timer.now, m.cfg.airtime, f);
    }
    if !(l.rx.active && f.message == l.rx.message) { BegunEmpty(l, f); }
  }

  lemma ReceiptIs(rx: Reassembly, f: Frame)
    requires ReassemblyShape(rx) && rx.session == f.session && rx.message == f.message && rx.total == f.value
    ensures DeliveredAck(rx) == Receipt(f)
  {
  }

  // A message just begun has nothing stored.
  lemma BegunEmpty(l: Link, f: Frame)
    requires Inv(l) && f.kind == DATA && Canonical(f) && f.sequence < MAX_SEGMENTS
      && !(l.rx.active && f.message == l.rx.message)
    ensures !Continued(l, f).received[f.sequence]
  {
    hide TxInv, SessionInv, RowsInv, Canonical, Fits;
    var from := if l.rx.active then ClearRx(l.rx) else l.rx;
    NothingStored(l.rx);
  }

  lemma NothingStored(rx: Reassembly)
    requires RxInv(rx)
    ensures !rx.active ==> forall i | 0 <= i < MAX_SEGMENTS :: !rx.received[i]
  {
    hide Fits, RxAck;
    if rx.count == 0 { CountNoneInverse(rx.received, MAX_SEGMENTS); }
  }

  lemma HandleDataStep(l: Link, f: Frame)
    requires Inv(l) && f.kind == DATA && Canonical(f)
    ensures DataStep(l, f, HandleData(l, f))
  {
    hide TxInv, RxInv, RowsInv, Canonical, PlaceSegment, DupLookup, DupStore, PartialAck, NoneSet, NoSegments, Pruned;
    LookupPrunes(l.dup, l.timer.now, f.session, f.message);
    var (dup, cached) := DupLookup(l.dup, l.timer.now, f.session, f.message);
    PrunedRemembers(l.dup, dup, l.timer.now, f);
    DataFits(f);
    if l.session.open && f.session == l.session.id && cached.None? {
      var looked := l.(dup := dup);
      if l.rx.active && f.message == l.rx.message {
        if l.rx.total == f.value { PlacedData(l, looked, f); }
      } else if !l.delivery.ready {
        var from := if l.rx.active then ClearRx(l.rx) else l.rx;
        PlacedData(l, looked.(rx := Begun(from, f)), f);
      }
    }
  }

  // ------------------------------------------------------------ every event

  predicate HearsKind(l: Link, i: Input, kind: u8) {
    i.Receive? && HeardFrame(l, i.raw).Some? && HeardFrame(l, i.raw).value.kind == kind
  }

  // The receive side of an event other than a DATA or BEACON frame: the record is kept or dropped, the cache kept or
  // emptied of entries, and what waits for collection stays or is handed over.
  predicate Passive(l: Link, r: Link) {
    && (r.rx == l.rx || !r.rx.active)
    && (forall k | 0 <= k < |r.dup| && r.dup[k].Held? :: r.dup[k] in l.dup)
    && (r.delivery == l.delivery || !r.delivery.ready)
  }

  lemma SendPassive(l: Link, message: seq<byte>, entropy: Option<Entropy>)
    requires Shape(l)
    requires entropy.Some? ==> |entropy.value.challenge| == CHALLENGE_BYTES
    ensures Passive(l, Send(l, message, entropy).0) && Send(l, message, entropy).0.rx == l.rx
  {
    hide Load, StartOrResume, OpenSession, Shape;
    if |message| <= l.cfg.maxMessage && !l.tx.active {
      Timers.LoadKeeps(l, message);
      ResumePassive(Load(l, message), false);
      OpenSessionPassive(Load(l, message), entropy);
    }
  }

  lemma ResumePassive(l: Link, retransmission: bool)
    requires Shape(l)
    ensures var r := StartOrResume(l, retransmission); r.rx == l.rx && r.dup == l.dup && r.delivery == l.delivery
  {
    hide StartOrResume;
    ResumeFrame(l, retransmission);
  }

  lemma OpenSessionPassive(l: Link, entropy: Option<Entropy>)
    requires Shape(l)
    requires entropy.Some? ==> |entropy.value.challenge| == CHALLENGE_BYTES
    ensures var r := OpenSession(l, entropy).0; r.rx == l.rx && r.dup == l.dup && r.delivery == l.delivery
  {
    hide HelloFrame, Canonical, Recompute;
  }

  lemma AdvanceTimePassive(l: Link, time: nat)
    requires Shape(l)
    ensures Passive(l, AdvanceTime(l, time)) && AdvanceTime(l, time).rx == l.rx
  {
    hide StartOrResume, HelloFrame, CancelFrame, Canonical, NoneSet, NoSegments, BackOff;
    var fired := l.(timer := l.timer.(now := if time > l.timer.now then time else l.timer.now, deadline := None));
    ResumePassive(Expired(fired), true);
  }

  lemma AnsweredPassive(l: Link, reply: Frame)
    requires Shape(l)
    ensures var r := Answered(l, reply); r.rx == l.rx && r.dup == l.dup && r.delivery == l.delivery
  {
    hide StartOrResume, Recompute;
    var begun := QueueRow(l, Sent(reply))
      .(session := l.session.(helloAck := Some(reply), open := true),
        timer := Recompute(l.timer, l.cfg.airtime, l.window));
    ResumePassive(begun, false);
  }

  lemma AdoptSessionPassive(l: Link, f: Frame)
    requires Shape(l) && f.kind == HELLO && Canonical(f)
    ensures var r := AdoptSession(l, f).0; r.rx == l.rx && r.dup == l.dup && r.delivery == l.delivery
  {
    hide Canonical, Answered, HelloAckFrame, Negotiated;
    AnsweredPassive(Named(l, f), HelloAckFrame(Named(l, f), f.message));
  }

  lemma HandleHelloPassive(l: Link, f: Frame)
    requires Shape(l) && f.kind == HELLO && Canonical(f)
    ensures Passive(l, HandleHello(l, f).0)
    ensures HandleHello(l, f).0.rx == if Replacing(l, f) then ClearRx(l.rx) else l.rx
  {
    hide Canonical, AdoptSession, NoneSet, NoSegments, CapabilityProfile, Below;
    AdoptSessionPassive(Yield(l), f);
    AdoptSessionPassive(l.(rx := ClearRx(l.rx), dup := NoDuplicates()), f);
    AdoptSessionPassive(l, f);
  }

  lemma HandleHelloAckPassive(l: Link, f: Frame)
    requires Shape(l)
    ensures Passive(l, HandleHelloAck(l, f).0) && HandleHelloAck(l, f).0.rx == l.rx
  {
    hide StartOrResume;
    var window := Negotiated(l, f);
    ResumePassive(l.(session := l.session.(pending := false, open := true), window := window,
                     timer := Recompute(l.timer, l.cfg.airtime, window).(deadline := None)), false);
  }

  lemma HandleAckPassive(l: Link, f: Frame)
    requires Shape(l)
    ensures Passive(l, HandleAck(l, f).0) && HandleAck(l, f).0.rx == l.rx
  {
    hide StartOrResume, MarkAcked, Recompute;
    if l.tx.active {
      ResumePassive(l.(tx := MarkAcked(l.tx, f), timer := Recompute(l.timer, l.cfg.airtime, l.window)), false);
    }
  }

  lemma HandleOtherPassive(l: Link, f: Frame)
    requires Inv(l) && Canonical(f) && f.kind != DATA && f.kind != BEACON
    ensures Passive(l, HandleFrame(l, f).0)
  {
    hide TxInv, RxInv, RowsInv, SessionInv, HandleHello, HandleHelloAck, HandleAck, NoneSet, NoSegments, Passive;
    CancelPassive(l, f);
    hide HandleCancel;
    if f.kind == HELLO {
      HandleHelloPassive(l, f);
    } else if f.kind == HELLO_ACK {
      HandleHelloAckPassive(l, f);
    } else if f.kind == ACK {
      HandleAckPassive(l, f);
    }
  }

  lemma CancelPassive(l: Link, f: Frame)
    requires Shape(l)
    ensures Passive(l, HandleCancel(l, f).0)
  {
    hide NoneSet, NoSegments;
  }

  lemma HearPassive(l: Link, raw: Codec.Raw)
    requires Inv(l) && !HearsKind(l, Receive(raw), DATA) && !HearsKind(l, Receive(raw), BEACON)
    ensures Passive(l, Hear(l, raw).0)
  {
    hide TxInv, RxInv, RowsInv, HandleFrame, Canonical, Codec.Decode;
    var noted := l.(heard := Some(Heard(raw, l.timer.now)));
    if HeardFrame(l, raw).Some? {
      NotedInv(l, noted.heard);
      HandleOtherPassive(noted, HeardFrame(l, raw).value);
    }
  }

  /** Only a DATA or a BEACON frame adds to what the receiver has or remembers. */
  lemma StepPassive(l: Link, i: Input)
    requires Inv(l) && ValidInput(i) && !HearsKind(l, i, DATA) && !HearsKind(l, i, BEACON)
    ensures Passive(l, Step(l, i).0)
  {
    hide TxInv, RxInv, SessionInv, RowsInv, Send, AdvanceTime, Hear, HearsKind, Recompute, Canonical, CancelFrame,
      NoneSet, NoSegments;
    match i
    case Submit(message, entropy) => SendPassive(l, message, entropy);
    case Tick(time) => AdvanceTimePassive(l, time);
    case Receive(raw) => HearPassive(l, raw);
    case Announce(_) =>
    case Abort(_) =>
    case Transmit =>
    case Take(_) =>
    case Restart =>
  }

  lemma HearData(l: Link, raw: Codec.Raw)
    requires Inv(l) && HearsKind(l, Receive(raw), DATA)
    ensures var f := HeardFrame(l, raw).value; Canonical(f) && DataStep(l, f, Hear(l, raw))
    ensures var f := HeardFrame(l, raw).value;
      && (Completes(l, f) ==> f.sequence < Continued(l, f).total)
      && Outcome(l, Hear(l, raw), Completes(l, f),
                 if Completes(l, f) then Verified(Whole(Continued(l, f), f), l.cfg.maxMessage) else None)
  {
    hide TxInv, RxInv, SessionInv, RowsInv, HandleData, Canonical, Codec.Decode, Verified, Concat, OneMore,
      SameSegments, Remembers, ClearRx, DupLookup;
    var noted := l.(heard := Some(Heard(raw, l.timer.now)));
    NotedInv(l, noted.heard);
    var f := HeardFrame(l, raw).value;
    HandleDataStep(noted, f);
    DeliveryImpliesIntegrity(noted, f);
    assert Continued(noted, f) == Continued(l, f);
  }

  // ------------------------------------------------------------ how a reassembly ends

  datatype Key = Key(session: u32, message: u16)

  function RxKey(rx: Reassembly): Key {
    Key(rx.session, rx.message)
  }

  // A DATA frame completes a message.
  predicate Stages(l: Link, i: Input)
    requires Shape(l) && ValidInput(i)
  {
    HearsKind(l, i, DATA) && Step(l, i).1 == Delivered
  }

  function StagedKey(l: Link, i: Input): Key
    requires HearsKind(l, i, DATA)
  {
    Key(HeardFrame(l, i.raw).value.session, HeardFrame(l, i.raw).value.message)
  }

  // A frame other than DATA at which handle_hello or handle_cancel clears the reassembly. Any CANCEL of the open
  // session does, whichever message it names.
  predicate Clears(l: Link, f: Frame) {
    Replacing(l, f) || (f.kind == CANCEL && l.session.open && f.session == l.session.id)
  }

  // An event other than a DATA frame that clears the reassembly.
  predicate Discards(l: Link, i: Input) {
    match i
    case Abort(reason) => reason <= CANCEL_REASON_MAX
    case Restart => true
    case Receive(raw) => HeardFrame(l, raw).Some? && Clears(l, HeardFrame(l, raw).value)
    case _ => false
  }

  // A DATA frame the cache does not answer that starts another message, or completes this one with bytes that do not
  // verify.
  predicate DataDrops(l: Link, f: Frame)
    requires Shape(l) && f.kind == DATA && Canonical(f)
  {
    && l.session.open && f.session == l.session.id && DupLookup(l.dup, l.timer.now, f.session, f.message).1.None?
    && (|| f.message != l.rx.message
        || (Completes(l, f) && Verified(Whole(Continued(l, f), f), l.cfg.maxMessage).None?))
  }

  /** The events that give an unfinished reassembly up, told from the state before the event. */
  predicate Drops(l: Link, i: Input)
    requires Shape(l)
  {
    l.rx.active && (Discards(l, i) || (HearsKind(l, i, DATA) && DataDrops(l, HeardFrame(l, i.raw).value)))
  }

  lemma DropsActive(l: Link, i: Input)
    requires Shape(l) && Drops(l, i)
    ensures l.rx.active
  {
    hide Discards, DataDrops;
  }

  // The same message with at least the same segments.
  predicate Retains(before: Reassembly, after: Reassembly)
    requires ReassemblyShape(before) && ReassemblyShape(after)
  {
    && after.active && RxKey(after) == RxKey(before) && after.total == before.total
    && forall j | 0 <= j < MAX_SEGMENTS && before.received[j] ::
      after.received[j] && after.segments[j] == before.segments[j]
  }

  // A record is given up, or staged, or retained.
  predicate Fate(before: Reassembly, after: Reassembly, drops: bool, stages: bool)
    requires ReassemblyShape(before) && ReassemblyShape(after)
  {
    if drops then !stages && !(after.active && RxKey(after) == RxKey(before))
    else if stages then !after.active
    else Retains(before, after)
  }

  lemma OtherMessage(l: Link, m: Link, f: Frame)
    requires Shape(l) && Shape(m) && f.kind == DATA && Canonical(f) && !m.rx.active && f.message != l.rx.message
    ensures var r := StoreSegment(m, f).0; !r.rx.active || r.rx.message == f.message
  {
    hide PlaceSegment, PartialAck, DeliveredAck, DupStore, Canonical, OneMore, SameSegments;
    if !m.delivery.ready {
      DataFits(f);
      var begun := m.(rx := Begun(m.rx, f));
      PlaceSegmentRecord(begun, f);
      PlacedMessage(begun, f, PlaceSegment(begun, f));
    }
  }

  lemma PlacedMessage(m: Link, f: Frame, r: (Link, Result))
    requires Shape(m) && Shape(r.0) && f.sequence < m.rx.total && 0 < |m.dup| && Placed(m, f, r)
    ensures !r.0.rx.active || r.0.rx.message == m.rx.message
  {
    hide PartialAck, DeliveredAck, DupStore;
  }

  lemma DataEnds(l: Link, f: Frame)
    requires Inv(l) && l.rx.active && f.kind == DATA && Canonical(f)
    ensures var r := HandleData(l, f);
            Fate(l.rx, r.0.rx, DataDrops(l, f), r.1 == Delivered && Key(f.session, f.message) == RxKey(l.rx))
  {
    hide TxInv, RxInv, RowsInv, Canonical, PlaceSegment, DupLookup, Verified, Whole, PartialAck, NoneSet, NoSegments;
    DeliveryImpliesIntegrity(l, f);
    DataFits(f);
    var (dup, cached) := DupLookup(l.dup, l.timer.now, f.session, f.message);
    var looked := l.(dup := dup);
    RetainsItself(l.rx);
    if f.session == l.session.id && cached.None? {
      if f.message != l.rx.message {
        OtherMessage(l, looked.(rx := ClearRx(l.rx)), f);
      } else if l.rx.total == f.value {
        PlaceSegmentRecord(looked, f);
      }
    }
  }

  lemma RetainsItself(rx: Reassembly)
    requires ReassemblyShape(rx) && rx.active
    ensures Retains(rx, rx)
  {
  }

  lemma HearKeeps(l: Link, raw: Codec.Raw)
    requires Inv(l) && !HearsKind(l, Receive(raw), DATA)
    ensures Hear(l, raw).0.rx == if Discards(l, Receive(raw)) then ClearRx(l.rx) else l.rx
  {
    hide TxInv, RxInv, RowsInv, HandleHello, HandleHelloAck, HandleAck, HandleData, Canonical, Codec.Decode, NoneSet,
      NoSegments, DupLookup, DupStore, Passive;
    var noted := l.(heard := Some(Heard(raw, l.timer.now)));
    if HeardFrame(l, raw).Some? {
      var f := HeardFrame(l, raw).value;
      if f.kind == HELLO {
        HandleHelloPassive(noted, f);
      } else if f.kind == HELLO_ACK {
        HandleHelloAckPassive(noted, f);
      } else if f.kind == ACK {
        HandleAckPassive(noted, f);
      }
    }
  }

  /** An event other than a DATA frame clears the reassembly or leaves it alone. */
  lemma StepKeeps(l: Link, i: Input)
    requires Inv(l) && ValidInput(i) && !HearsKind(l, i, DATA)
    ensures Step(l, i).0.rx == if Discards(l, i) then ClearRx(l.rx) else l.rx
  {
    hide TxInv, RxInv, SessionInv, RowsInv, Send, AdvanceTime, Hear, HearsKind, Recompute, Canonical, CancelFrame,
      NoneSet, NoSegments, Passive, Clears, HeardFrame;
    match i
    case Submit(message, entropy) => SendPassive(l, message, entropy);
    case Tick(time) => AdvanceTimePassive(l, time);
    case Receive(raw) => HearKeeps(l, raw);
    case Announce(_) =>
    case Abort(_) =>
    case Transmit =>
    case Take(_) =>
    case Restart =>
  }

  lemma HearEnds(l: Link, raw: Codec.Raw)
    requires Inv(l) && l.rx.active && HearsKind(l, Receive(raw), DATA)
    ensures var f, r := HeardFrame(l, raw).value, Hear(l, raw);
            Fate(l.rx, r.0.rx, DataDrops(l, f), r.1 == Delivered && Key(f.session, f.message) == RxKey(l.rx))
  {
    hide TxInv, RxInv, SessionInv, RowsInv, HandleData, Canonical, Codec.Decode, Verified, Concat, Fate, DupLookup;
    var noted := l.(heard := Some(Heard(raw, l.timer.now)));
    var f := HeardFrame(l, raw).value;
    NotedInv(l, noted.heard);
    DataEnds(noted, f);
    assert Continued(noted, f) == Continued(l, f);
  }

  /** At every event an unfinished reassembly is given up exactly when Drops says so; else its message is staged, or it
      is still there with every segment it had. */
  lemma StepFate(l: Link, i: Input)
    requires Inv(l) && ValidInput(i) && l.rx.active
    ensures Fate(l.rx, Step(l, i).0.rx, Drops(l, i), Stages(l, i) && StagedKey(l, i) == RxKey(l.rx))
  {
    hide TxInv, RxInv, SessionInv, RowsInv, Step, HeardFrame, DataDrops, Retains, NoneSet, NoSegments;
    if HearsKind(l, i, DATA) {
      StepIsHear(l, i);
      HearEnds(l, i.raw);
    } else {
      StepKeeps(l, i);
      RetainsItself(l.rx);
    }
  }

  lemma StepIsHear(l: Link, i: Input)
    requires Shape(l) && i.Receive?
    ensures ValidInput(i) && Step(l, i) == Hear(l, i.raw)
  {
    hide Shape, Send, Beacon, Cancel, AdvanceTime, Hear, TakeRow, Collect, Reset;
  }

}
