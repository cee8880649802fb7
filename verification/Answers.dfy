/**
  What is owed: the frames a call or a frame heard must put in the ring, the results callers get, and the state they
  leave behind. Elsewhere it is proved that nothing wrong is queued; here, that nothing is left out.
 */
module Answers {
  import opened Bytes
  import opened Wire
  import opened LinkSpec
  import opened Reachable
  import opened Invariant
  import opened Effects
  import opened Integrity
  import opened DupCache
  import opened Receiving
  import Acks
  import Codec
  import Exhaustion
  import Lossless
  import Timers

  // The ring takes one more row.
  predicate Room(l: Link) {
    |l.out| < OUT_QUEUE_FRAMES
  }

  // ------------------------------------------------------------ creation

  /** kal_link_create keeps what the caller asked for and fills in zeros: 4096 bytes, a window of four, five retries.
      Refused options are invalid, except for another sample rate and high frequencies not asked for. */
  lemma AdmitAnswers(o: Options, airtime: nat)
    ensures match Admit(o, airtime)
      case Admitted(cfg, window) =>
        && cfg.role == (if o.role == 0 then Initiator else Responder) && cfg.profile == o.profile
        && cfg.maxMessage == (if o.maxMessage == 0 then 4096 else o.maxMessage)
        && window == (if o.window == 0 then 4 else o.window)
        && cfg.maxRetries == (if o.maxRetries == 0 then 5 else o.maxRetries)
        && cfg.airtime == (if airtime == 0 then 1 else airtime)
      case Refused(error) =>
        && var wrongRate := o.sampleRate != 0 && o.sampleRate != 48000;
           var highUnasked := o.maxMessage <= 4096 && o.window <= 16 && o.profile == 5 && !o.highFrequency;
           error == if o.reserved == 0 && (wrongRate || highUnasked) then Unsupported else Invalid
  {
  }

  // ------------------------------------------------------------ calls

  /** kal_send refuses a message that is too long, or that comes during a transfer, and then changes nothing. A message
      it takes is loaded under the next id, and it says KAL_OK unless a session has to be proposed first and cannot be:
      then the transfer is gone and the status says why. */
  lemma SendAnswers(l: Link, message: seq<byte>, entropy: Option<Entropy>)
    requires Inv(l) && (entropy.Some? ==> |entropy.value.challenge| == CHALLENGE_BYTES)
    ensures var (r, status) := Send(l, message, entropy);
      && (|message| > l.cfg.maxMessage ==> status == Invalid && r == l)
      && (|message| <= l.cfg.maxMessage && l.tx.active ==> status == LinkSpec.Busy && r == l)
      && (|message| <= l.cfg.maxMessage && !l.tx.active ==>
            var proposes := !l.session.open && !l.session.pending && l.cfg.role.Initiator?;
            && status == (if !proposes then Success else if entropy.None? then ModemFailure
                          else if Room(l) then Success else LinkSpec.Busy)
            && (status == Success <==> r.tx.active)
            && (status == Success ==> Loaded(r, message, l.session.nextMessage))
            && (status != Success ==> r.tx.status == status && r.out == l.out && !r.session.pending))
  {
    hide TxInv, RxInv, RowsInv, SessionInv, StartOrResume, Chunks, Transfer, Recompute, Canonical, SegmentCount,
      NoneSet, NoSegments;
    if |message| <= l.cfg.maxMessage && !l.tx.active {
      var m := Load(l, message);
      ResumeFrame(m, false);
      if entropy.Some? {
        var id: u32 := if entropy.value.session == 0 then 1 else entropy.value.session;
        HelloFramesCanonical(m.(session := m.session.(id := id, challenge := entropy.value.challenge)), 0);
      }
    }
  }

  // The message waits to be sent or is being sent, under that id.
  predicate Loaded(l: Link, message: seq<byte>, id: u16) {
    && l.tx.active && l.tx.status == LinkSpec.Busy && l.tx.message == id
    && l.tx.base == 0 && l.tx.retries == 0 && l.tx.acked == NoneSet()
    && SegmentCount(|message|) == Some(l.tx.total) && l.tx.segments == Chunks(Transfer(message), l.tx.total)
  }

  /** An opening kal_send starts puts a HELLO with the drawn id and challenge and the link's profile and window in the
      ring, and arms its deadline. */
  lemma SendProposes(l: Link, message: seq<byte>, entropy: Entropy)
    requires Inv(l) && |entropy.challenge| == CHALLENGE_BYTES && Room(l)
    requires |message| <= l.cfg.maxMessage && !l.tx.active && l.cfg.role.Initiator?
    requires !l.session.open && !l.session.pending
    ensures var r := Send(l, message, Some(entropy)).0;
      && |r.out| == |l.out| + 1 && r.out[..|l.out|] == l.out
      && r.out[|l.out|].Sent? && Proposal(r, r.out[|l.out|].frame)
      && r.session.pending && r.session.id == (if entropy.session == 0 then 1 else entropy.session)
      && r.session.challenge == entropy.challenge && r.session.helloRetries == 0 && Armed(r)
  {
    hide TxInv, RxInv, RowsInv, SessionInv, Load, Recompute, Canonical;
    Timers.LoadKeeps(l, message);
    var id: u32 := if entropy.session == 0 then 1 else entropy.session;
    var named := Load(l, message).(session := l.session.(id := id, challenge := entropy.challenge));
    HelloFramesCanonical(named, 0);
    Timers.RecomputeClock(l.timer, l.cfg.airtime, 1);
  }

  // A HELLO for the session l proposes.
  predicate Proposal(l: Link, f: Frame) {
    && f.kind == HELLO && f.session == l.session.id && f.payload == l.session.challenge
    && f.message == l.session.nextMessage
    && CapabilityProfile(f.value) == l.cfg.profile && CapabilityWindow(f.value) == l.window
  }

  // The deadline is one timeout away.
  predicate Armed(l: Link) {
    l.timer.deadline == Some(l.timer.now + l.timer.timeout)
  }

  /** kal_beacon queues the whole payload under the session and the next message id, or says why not. */
  lemma BeaconAnswers(l: Link, payload: seq<byte>)
    requires Shape(l)
    ensures var (r, status) := Beacon(l, payload);
      && (payload == [] || |payload| > MAX_BEACON_BYTES ==> status == Invalid && r == l)
      && (1 <= |payload| <= MAX_BEACON_BYTES && !Room(l) ==> status == LinkSpec.Busy && r == l)
      && (1 <= |payload| <= MAX_BEACON_BYTES && Room(l) ==>
            && status == Success && r == l.(out := r.out) && |r.out| == |l.out| + 1 && r.out[..|l.out|] == l.out
            && r.out[|l.out|] == Sent(Frame(BEACON, l.session.id, l.session.nextMessage, 0, 0, 0, payload)))
  {
  }

  /** kal_cancel tells the peer the reason, and leaves nothing to send, nothing in reassembly and no deadline. */
  lemma CancelAnswers(l: Link, reason: u16)
    requires Shape(l)
    ensures var (r, status) := Cancel(l, reason);
      && (reason > CANCEL_REASON_MAX ==> status == Invalid && r == l)
      && (reason <= CANCEL_REASON_MAX ==>
            && status == Success && !r.tx.active && r.tx.status == Cancelled && !r.rx.active && r.timer.deadline.None?
            && r.session == l.session && r.dup == l.dup && r.delivery == l.delivery
            && (Room(l) ==> Farewell(l, r, reason)))
  {
    hide NoneSet, NoSegments;
    if reason <= CANCEL_REASON_MAX { CancelFrameCanonical(l, reason); }
  }

  // The last row is a CANCEL of l's transfer.
  predicate Farewell(l: Link, r: Link, reason: u16) {
    && |r.out| == |l.out| + 1 && r.out[..|l.out|] == l.out && r.out[|l.out|].Sent?
    && var f := r.out[|l.out|].frame;
       f.kind == CANCEL && f.session == l.session.id && f.message == l.tx.message && f.value == reason
  }

  /** kal_receive hands a staged message over once: afterwards nothing is staged. A message that does not fit stays, and
      with nothing staged there is nothing to hand over. */
  lemma TakeAnswers(l: Link, capacity: nat)
    requires Shape(l)
    ensures var (r, status, message) := Collect(l, capacity);
      && r == l.(delivery := r.delivery)
      && (status == Success <==> l.delivery.ready && |l.delivery.message| <= capacity)
      && (status == Success ==> message == l.delivery.message && !r.delivery.ready && r.delivery.message == [])
      && (status != Success ==> r == l && message == [] && status == if l.delivery.ready then Invalid else WantInput)
  {
  }

  /** A reset link is a new link that kept its window and its clock. */
  lemma ResetIsNew(l: Link)
    requires Shape(l) && ValidConfig(l.cfg, l.window)
    ensures var (r, anew) := (Reset(l), Initial(l.cfg, l.window));
      && r == anew.(timer := anew.timer.(now := l.timer.now), rx := anew.rx.(session := l.rx.session))
  {
    hide NoDuplicates, NoneSet, NoSegments, ZeroChallenge, Airtimes, Quotient;
  }

  // ------------------------------------------------------------ time

  /** The clock follows the caller's, and never goes back. */
  lemma ClockFollows(l: Link, time: nat)
    requires Shape(l)
    ensures AdvanceTime(l, time).timer.now == if time > l.timer.now then time else l.timer.now
  {
    hide StartOrResume, HelloFrame, CancelFrame, Canonical, NoneSet, NoSegments;
    ResumeClock(Expired(l.(timer := l.timer.(now := if time > l.timer.now then time else l.timer.now,
                                             deadline := None))), true);
  }

  /** An opening whose deadline passes with retries left asks again: the same proposal goes into the ring whenever there
      is room, and the next deadline is armed. */
  lemma OpeningResends(l: Link, time: nat)
    requires Shape(l) && Due(l, time) && l.session.pending && l.session.helloRetries < l.cfg.maxRetries
    ensures var r := AdvanceTime(l, time);
      && r.session == l.session.(helloRetries := l.session.helloRetries + 1) && Armed(r) && r.tx == l.tx
      && if Room(l) then |r.out| == |l.out| + 1 && r.out[..|l.out|] == l.out
           && r.out[|l.out|].Sent? && Proposal(l, r.out[|l.out|].frame) else r.out == l.out
  {
    hide Canonical, BackOff;
    HelloFramesCanonical(l, 0);
  }

  /** A transfer given up tells the peer so, whenever there is room. */
  lemma GivingUpCancels(l: Link, time: nat)
    requires Shape(l) && Due(l, time) && !l.session.pending && l.tx.active && l.tx.started
    requires l.tx.retries >= l.cfg.maxRetries
    ensures var r := AdvanceTime(l, time);
      && !r.tx.active && r.tx.status == Timeout && r.timer.deadline.None?
      && if Room(l) then Farewell(l, r, CANCEL_TIMEOUT) else r.out == l.out
  {
    hide NoneSet, NoSegments;
    CancelFrameCanonical(l, CANCEL_TIMEOUT);
  }

  // ------------------------------------------------------------ frames heard

  /** The repeat guard: the frame heard last has no effect for two airtimes. Any other is noted, with the time. */
  lemma RepeatIgnored(l: Link, raw: Codec.Raw)
    requires Shape(l)
    ensures var repeats := l.heard.Some? && l.heard.value.raw == raw
                           && l.timer.now < l.heard.value.at + 2 * l.cfg.airtime;
      && (repeats ==> Hear(l, raw) == (l, Success))
      && (!repeats ==> Hear(l, raw).0.heard == Some(Heard(raw, l.timer.now)))
  {
    hide Codec.Decode, Canonical, HandleFrame;
    if Codec.Decode(raw).Good? {
      FrameKeepsHeard(l.(heard := Some(Heard(raw, l.timer.now))), Codec.Decode(raw).frame);
    }
  }

  // The handlers leave the guard alone.
  lemma FrameKeepsHeard(l: Link, f: Frame)
    requires Shape(l) && Canonical(f)
    ensures HandleFrame(l, f).0.heard == l.heard
  {
    hide Canonical, HandleData, AdoptSession, DupLookup, DupStore, StartOrResume, MarkAcked, Recompute, NoneSet,
      NoSegments, CapabilityProfile, Negotiated;
    if f.kind == HELLO {
      AdoptKeepsHeard(l, f);
      AdoptKeepsHeard(Yield(l), f);
      AdoptKeepsHeard(l.(rx := ClearRx(l.rx), dup := NoDuplicates()), f);
    } else if f.kind == HELLO_ACK {
      var window := Negotiated(l, f);
      NegotiatedInRange(l, f);
      ResumeFrame(l.(session := l.session.(pending := false, open := true), window := window,
                         timer := Recompute(l.timer, l.cfg.airtime, window).(deadline := None)), false);
    } else if f.kind == DATA {
      Lossless.HeardKept(l, f);
    } else if f.kind == ACK && l.tx.active {
      ResumeFrame(l.(tx := MarkAcked(l.tx, f), timer := Recompute(l.timer, l.cfg.airtime, l.window)), false);
    }
  }

  lemma NegotiatedInRange(l: Link, f: Frame)
    requires Shape(l)
    ensures MIN_WINDOW <= Negotiated(l, f) <= MAX_WINDOW
  {
    hide CapabilityWindow;
  }

  lemma AdoptKeepsHeard(l: Link, f: Frame)
    requires Shape(l) && f.kind == HELLO && Canonical(f)
    ensures AdoptSession(l, f).0.heard == l.heard
  {
    hide Canonical, StartOrResume, Recompute, HelloAckFrame;
    var named := Named(l, f);
    var reply := HelloAckFrame(named, f.message);
    ResumeFrame(QueueRow(named, Sent(reply))
      .(session := named.session.(helloAck := Some(reply), open := true),
        timer := Recompute(named.timer, named.cfg.airtime, named.window)), false);
  }

  /** A HELLO for the session already open is answered as it was the first time, and changes nothing. */
  lemma HelloAnsweredAgain(l: Link, f: Frame)
    requires Inv(l) && f.kind == HELLO && Canonical(f) && CapabilityProfile(f.value) == l.cfg.profile
    requires l.session.open && f.session == l.session.id
    ensures var r := HandleHello(l, f).0;
      && r == l.(out := r.out)
      && if l.session.helloAck.Some? && Room(l)
           then r.out == l.out + [Sent(HelloAckFrame(l, l.session.helloAck.value.message))] else r.out == l.out
  {
    hide TxInv, RxInv, RowsInv, Canonical, AdoptSession, HelloAckFrame, CapabilityProfile;
  }

  /** A HELLO that is taken over is answered with its session, challenge and message id and with the agreed window. When
      it replaces a session, nothing of the old one stays in reassembly or in the cache. */
  lemma HelloAnswered(l: Link, f: Frame)
    requires Inv(l) && Exhaustion.Opens(l, f) && Canonical(f) && Room(l)
    ensures var r := HandleHello(l, f).0;
      && r.session.open && !r.session.pending && r.session.id == f.session && r.session.challenge == f.payload
      && r.window == Negotiated(l, f) && |l.out| < |r.out| && r.out[..|l.out|] == l.out
      && r.out[|l.out|] == Sent(HelloAckFrame(r, f.message)) && r.session.helloAck == Some(HelloAckFrame(r, f.message))
      && (r.rx, r.dup) == if l.session.open then (ClearRx(l.rx), NoDuplicates()) else (l.rx, l.dup)
  {
    hide TxInv, RxInv, RowsInv, Canonical, StartOrResume, Recompute, CapabilityWindow, CapabilityProfile, NoneSet,
      NoSegments, NoDuplicates;
    AdoptAnswers(l, f);
    if l.session.pending {
      YieldInv(l);
      AdoptAnswers(Yield(l), f);
    }
    AdoptAnswers(l.(rx := ClearRx(l.rx), dup := NoDuplicates()), f);
  }

  lemma AdoptAnswers(l: Link, f: Frame)
    requires Shape(l) && TxInv(l.tx) && f.kind == HELLO && Canonical(f) && Room(l)
    ensures var r := AdoptSession(l, f).0;
      && r.session == l.session.(id := f.session, challenge := f.payload, open := true,
                                 helloAck := Some(HelloAckFrame(r, f.message)))
      && r.window == Negotiated(l, f) && |l.out| < |r.out| && r.out[..|l.out|] == l.out
      && r.out[|l.out|] == Sent(HelloAckFrame(r, f.message))
      && r.rx == l.rx && r.dup == l.dup
  {
    hide TxInv, Canonical, StartOrResume, Recompute, CapabilityWindow;
    var named := Named(l, f);
    HelloFramesCanonical(named, f.message);
    var begun := QueueRow(named, Sent(HelloAckFrame(named, f.message)))
      .(session := named.session.(helloAck := Some(HelloAckFrame(named, f.message)), open := true),
        timer := Recompute(l.timer, l.cfg.airtime, named.window));
    ResumeKeepsRing(begun);
    ResumeFrame(begun, false);
  }

  /** The confirmation of a proposal opens the session at the agreed window; the proposal's deadline is gone, and the
      only one left is that of the window queued. */
  lemma ConfirmationAnswers(l: Link, f: Frame)
    requires Inv(l) && Exhaustion.Settles(l, f) && Canonical(f)
    ensures var (r, status) := HandleHelloAck(l, f);
      && status == Success && r.session == l.session.(pending := false, open := true) && r.window == Negotiated(l, f)
      && r.rx == l.rx && r.dup == l.dup && |l.out| <= |r.out| && r.out[..|l.out|] == l.out
      && if r.out == l.out then r.timer.deadline.None? else l.tx.active && r.tx.started && Armed(r)
  {
    hide TxInv, RxInv, RowsInv, Canonical, QueueFrom, Recompute, CapabilityWindow, CapabilityProfile, Negotiated;
    NegotiatedInRange(l, f);
    var begun := l.(session := l.session.(pending := false, open := true), window := Negotiated(l, f),
                    timer := Recompute(l.timer, l.cfg.airtime, Negotiated(l, f)).(deadline := None));
    ResumeKeepsRing(begun);
    QueueFromQueued(begun, begun.tx.base, 0);
    QueueFromFrame(begun, begun.tx.base, 0);
    Timers.RecomputeClock(l.timer, l.cfg.airtime, Negotiated(l, f));
  }

  // start_or_resume_tx appends.
  lemma ResumeKeepsRing(l: Link)
    requires Shape(l) && TxInv(l.tx)
    ensures var r := StartOrResume(l, false); |l.out| <= |r.out| && r.out[..|l.out|] == l.out
  {
    hide QueueFrom, Recompute, DataFrame, Fits;
    QueueFromQueued(l, l.tx.base, 0);
  }

  // A DATA frame the cache does not answer names a stored segment of the message in reassembly.
  predicate Repeats(l: Link, f: Frame)
    requires Shape(l)
  {
    && f.kind == DATA && Canonical(f) && l.session.open && f.session == l.session.id
    && DupLookup(l.dup, l.timer.now, f.session, f.message).1.None?
    && l.rx.active && f.message == l.rx.message && f.value == l.rx.total && f.sequence < l.rx.total
    && l.rx.received[f.sequence]
  }

  // A partial acknowledgement that names exactly what is stored, in its reach.
  predicate Tells(rx: Reassembly, a: Frame)
    requires ReassemblyShape(rx)
  {
    && a.kind == ACK && !Flagged(a) && a.session == rx.session && a.message == rx.message
    && forall i | 0 <= i < rx.total ::
      Names(a, i) <==> rx.received[i] && Acks.InReach(FirstClear(rx.received, 0, rx.total), i)
  }

  lemma PartialAckTells(rx: Reassembly)
    requires ReassemblyShape(rx)
    ensures Tells(rx, PartialAck(rx)) && Canonical(PartialAck(rx))
  {
    hide Names, FirstClear, Bitmap, Canonical;
    AckFramesCanonical(rx);
    forall i | 0 <= i < rx.total
      ensures Names(PartialAck(rx), i) <==>
        rx.received[i] && Acks.InReach(FirstClear(rx.received, 0, rx.total), i)
    {
      Acks.PartialAckNames(rx, i);
    }
  }

  // The receiver's acknowledgement of that message: the one it sent last or, before the first, one that names exactly
  // the stored segments in its reach.
  predicate Owed(l: Link, f: Frame, a: Frame)
    requires Shape(l)
  {
    && a.kind == ACK && !Flagged(a) && a.session == f.session && a.message == f.message
    && if l.rx.ack.Some? then a == l.rx.ack.value else Tells(l.rx, a)
  }

  /** A segment of the message in reassembly that is already stored is acknowledged again, with the last acknowledgement
      of that message or, before the first, with one that names exactly the stored segments in its reach. With other
      bytes it is refused. Either way the reassembly and the staged message stay as they are. */
  lemma RepeatAcknowledged(l: Link, f: Frame) returns (a: Frame)
    requires Inv(l) && Repeats(l, f) && Room(l)
    ensures Owed(l, f, a) && Canonical(a)
    ensures var (r, status) := HandleData(l, f);
      && r.rx == l.rx.(ack := r.rx.ack) && r.delivery == l.delivery
      && if f.payload == l.rx.segments[f.sequence]
         then status == Success && r.out == l.out + [Sent(a)] && r.rx.ack == Some(a)
         else status == Protocol && r.out == l.out && r.rx == l.rx
  {
    hide TxInv, RowsInv, DupLookup, PartialAck, Canonical, NewSegment, Names, Count, Fits, FirstClear;
    PartialAckTells(l.rx);
    a := if l.rx.ack.Some? then l.rx.ack.value else PartialAck(l.rx);
  }

  // A DATA frame the cache does not answer, with a missing segment of a message the link may take, others still
  // missing.
  predicate Supplies(l: Link, f: Frame)
    requires Shape(l) && f.kind == DATA && Canonical(f)
  {
    hide DupLookup, Canonical;
    && l.session.open && f.session == l.session.id
    && DupLookup(l.dup, l.timer.now, f.session, f.message).1.None?
    && (l.delivery.ready ==> l.rx.active && f.message == l.rx.message)
    && var rx := Continued(l, f);
      f.sequence < f.value == rx.total && !rx.received[f.sequence] && rx.count + 1 < rx.total
  }

  /** A missing segment is stored, in whatever order it comes; every `window` segments what is stored is acknowledged.
      */
  lemma SegmentAnswered(l: Link, f: Frame) returns (a: Frame)
    requires Inv(l) && f.kind == DATA && Canonical(f) && Supplies(l, f)
    ensures var (rx, r, status) := (Stored(Continued(l, f), f), HandleData(l, f).0, HandleData(l, f).1);
      && Tells(rx, a) && status == Success && r.delivery == l.delivery
      && if rx.count % l.window == 0 then r.rx == rx.(ack := Some(a)) && (Room(l) ==> r.out == l.out + [Sent(a)])
         else r.rx == rx && r.out == l.out
  {
    hide TxInv, RxInv, RowsInv, SessionInv, DupLookup, PartialAck, Tells, Canonical, Fits, FinishRx, NoneSet,
      NoSegments, Modulo;
    var rx := Stored(Continued(l, f), f);
    PartialAckTells(rx);
    a := PartialAck(rx);
    Division(rx.count, l.window);
  }

  lemma FinishAnswers(l: Link)
    requires Shape(l) && 1 <= l.rx.total
    ensures var (r, status) := FinishRx(l);
      && !r.rx.active && (status != Delivered ==> r.out == l.out)
      && (status == Delivered && Room(l) ==> r.out == l.out + [Sent(DeliveredAck(l.rx))])
  {
    hide Accepted, Canonical, DeliveredAck, DupStore, NoneSet, NoSegments;
    AckFramesCanonical(l.rx);
  }

  /** The segment that completes a message is answered with the receipt when the bytes verify, else with nothing; either
      way nothing is left in reassembly. */
  lemma CompletionAnswered(l: Link, f: Frame)
    requires Inv(l) && f.kind == DATA && Canonical(f) && Completes(l, f)
    ensures f.sequence < Continued(l, f).total
    ensures var r := HandleData(l, f).0;
      && !r.rx.active
      && if Verified(Whole(Continued(l, f), f), l.cfg.maxMessage).None? then r.out == l.out
         else Room(l) ==> r.out == l.out + [Sent(Receipt(f))]
  {
    hide TxInv, RxInv, RowsInv, DupLookup, Canonical, Fits, FinishRx, NoneSet, NoSegments, Verified, Whole;
    DeliveryImpliesIntegrity(l, f);
    var dup := DupLookup(l.dup, l.timer.now, f.session, f.message).0;
    FinishAnswers(l.(dup := dup, rx := Stored(Continued(l, f), f)));
  }

  /** The receipt of the whole message ends the transfer: KAL_OK, no deadline, and the next message gets the next id.
      With any other count it is refused. */
  lemma ReceiptAnswers(l: Link, f: Frame)
    requires Inv(l) && f.kind == ACK && Flagged(f) && l.tx.active && f.session == l.session.id
      && f.message == l.tx.message
    ensures var (r, status) := HandleAck(l, f);
      if f.sequence == l.tx.total
      then status == Success && !r.tx.active && r.tx.status == Success && r.timer.deadline.None? && r.out == l.out
           && r.session.nextMessage == (l.session.nextMessage + 2) % 0x1_0000
      else status == Protocol && r == l
  {
    hide TxInv, RxInv, RowsInv, SessionInv, NoneSet, NoSegments, StartOrResume;
  }

  /** A partial acknowledgement of the transfer takes back the retries spent and leaves a deadline armed. */
  lemma PartialAnswers(l: Link, f: Frame)
    requires Inv(l) && Matches(l, f)
    ensures var (r, status) := HandleAck(l, f);
      && status == Success && r.tx.active && r.tx.retries == 0 && r.timer.deadline.Some? && r.session == l.session
      && (l.timer.deadline.None? ==> Armed(r))
  {
    hide TxInv, RxInv, RowsInv, SessionInv, AckedAfter, InflightAfter, FirstClear, Recompute, QueueFrom;
    var marked := l.(tx := MarkAcked(l.tx, f), timer := Recompute(l.timer, l.cfg.airtime, l.window));
    QueueFromFrame(marked, marked.tx.base, 0);
    Timers.RecomputeClock(l.timer, l.cfg.airtime, l.window);
  }

  /** A CANCEL of the open session ends both directions, and says so to whoever asks. Of another session it is refused.
      */
  lemma CancelHeard(l: Link, f: Frame)
    requires Shape(l) && f.kind == CANCEL
    ensures var (r, status) := HandleCancel(l, f);
      if l.session.open && f.session == l.session.id
      then status == Cancelled && !r.tx.active && r.tx.status == Cancelled && !r.rx.active && r.timer.deadline.None?
           && r.cancelSeen && r.session == l.session && r.out == l.out && r.delivery == l.delivery
      else status == Protocol && r == l
  {
    hide NoneSet, NoSegments;
  }

  // ------------------------------------------------------------ frames refused

  // A HELLO of another profile, or for another session than the one an initiator has open.
  predicate HelloMisplaced(l: Link, f: Frame) {
    CapabilityProfile(f.value) != l.cfg.profile
    || (l.cfg.role.Initiator? && !l.session.pending && l.session.open && f.session != l.session.id)
  }

  // DATA of another session or, for the message in reassembly, with another total or other bytes for a stored segment.
  predicate DataMisplaced(l: Link, f: Frame)
    requires Shape(l)
  {
    !l.session.open || f.session != l.session.id
    || (DupLookup(l.dup, l.timer.now, f.session, f.message).1.None? && l.rx.active && f.message == l.rx.message
        && (f.value != l.rx.total
            || (f.sequence < l.rx.total && l.rx.received[f.sequence] && l.rx.segments[f.sequence] != f.payload)))
  }

  // An acknowledgement of no transfer under way, or that cannot be one of it.
  predicate AckMisplaced(l: Link, f: Frame) {
    || !l.tx.active || f.session != l.session.id || f.message != l.tx.message
    || (if Flagged(f) then f.sequence != l.tx.total else f.sequence > l.tx.total)
  }

  predicate Misplaced(l: Link, f: Frame)
    requires Shape(l)
  {
    hide HelloMisplaced, DataMisplaced, AckMisplaced;
    if f.kind == HELLO then HelloMisplaced(l, f)
    else if f.kind == HELLO_ACK then
      !l.session.pending || f.session != l.session.id || f.payload != l.session.challenge
      || CapabilityProfile(f.value) != l.cfg.profile
    else if f.kind == DATA then DataMisplaced(l, f)
    else if f.kind == ACK then AckMisplaced(l, f)
    else f.kind == CANCEL && !(l.session.open && f.session == l.session.id)
  }

  /** A frame is a protocol error exactly when it is misplaced, and then it changes nothing: at most expired entries of
      the cache are dropped. */
  lemma RefusedExactly(l: Link, f: Frame)
    requires Inv(l) && Canonical(f)
    ensures var (r, status) := HandleFrame(l, f);
      && (status == Protocol <==> Misplaced(l, f)) && (Misplaced(l, f) ==> r == l.(dup := r.dup))
      && (f.kind == HELLO || f.kind == HELLO_ACK || f.kind == ACK ==> status == Protocol || status == Success)
  {
    hide TxInv, RxInv, RowsInv, SessionInv, Canonical, HandleHello, HandleData, HandleAck, HelloMisplaced,
      DataMisplaced, AckMisplaced, StartOrResume, Recompute, Negotiated, CapabilityProfile, DupLookup, DupStore,
      NoneSet, NoSegments;
    assert HELLO <= f.kind <= BEACON by { CanonicalExactly(f); }
    if f.kind == HELLO { HelloRefused(l, f); }
    if f.kind == DATA { DataRefused(l, f); }
    if f.kind == ACK { AckRefused(l, f); }
  }

  lemma HelloRefused(l: Link, f: Frame)
    requires Inv(l) && f.kind == HELLO && Canonical(f)
    ensures var (r, status) := HandleHello(l, f);
      status == (if HelloMisplaced(l, f) then Protocol else Success) && (HelloMisplaced(l, f) ==> r == l)
  {
    hide TxInv, RxInv, RowsInv, Canonical, AdoptSession, CapabilityProfile, NoDuplicates, NoneSet, NoSegments;
    AdoptUncached(l, f);
    AdoptUncached(Yield(l), f);
    AdoptUncached(l.(rx := ClearRx(l.rx), dup := NoDuplicates()), f);
  }

  lemma IdleHasNothing(rx: Reassembly)
    requires RxInv(rx) && !rx.active
    ensures forall i | 0 <= i < MAX_SEGMENTS :: !rx.received[i]
  {
    hide Count, Fits;
  }

  lemma DataRefused(l: Link, f: Frame)
    requires Inv(l) && f.kind == DATA && Canonical(f)
    ensures var (r, status) := HandleData(l, f);
      (status == Protocol <==> DataMisplaced(l, f)) && (DataMisplaced(l, f) ==> r == l.(dup := r.dup))
  {
    hide TxInv, RxInv, RowsInv, Canonical, DupLookup, DupStore, PartialAck, DeliveredAck, Accepted, AckDue,
      NoSegments, Fits;
    DataFits(f);
    if !l.rx.active { IdleHasNothing(l.rx); }
  }

  lemma AckRefused(l: Link, f: Frame)
    requires Shape(l)
    ensures var (r, status) := HandleAck(l, f);
      status == (if AckMisplaced(l, f) then Protocol else Success) && (AckMisplaced(l, f) ==> r == l)
  {
    hide StartOrResume, MarkAcked, Recompute, NoneSet, NoSegments, ClearTx, NextMessage;
  }
}
