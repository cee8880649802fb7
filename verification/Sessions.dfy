/**
  What one event can do to the session record and to the window.
 */
module Sessions {
  import opened Bytes
  import opened Wire
  import opened LinkSpec
  import opened Reachable
  import opened Invariant
  import opened Effects
  import opened DupCache
  import Timers
  import Codec

  // The session is as it was, but for the counters of message ids and opening retries.
  predicate SameSession(l: Link, r: Link) {
    && r.session == l.session.(nextMessage := r.session.nextMessage, helloRetries := r.session.helloRetries)
    && r.window == l.window
  }

  // open_session named a session and, if the ring had room, proposed it.
  predicate Proposes(l: Link, r: Link, entropy: Option<Entropy>) {
    && !l.session.open && !l.session.pending && l.cfg.role.Initiator? && entropy.Some?
    && r.session.id == (if entropy.value.session == 0 then 1 else entropy.value.session)
    && r.session.challenge == entropy.value.challenge
    && !r.session.open && (r.session.pending <==> r.tx.active)
    && r.session.helloAck == l.session.helloAck && r.session.nextMessage == l.session.nextMessage
      && r.window == l.window
  }

  // The opening was given up: the session and the transfer waiting for it are gone.
  predicate Abandons(l: Link, r: Link) {
    l.session.pending && r.session == l.session.(pending := false) && r.window == l.window && !r.tx.active
  }

  // handle_hello takes over the session of a HELLO.
  predicate Adopts(l: Link, f: Frame, r: Link)
    requires Shape(l)
  {
    && f.kind == HELLO && CapabilityProfile(f.value) == l.cfg.profile
    && (if l.session.pending then Below(f.session, l.session.id)
        else l.session.open ==> l.cfg.role.Responder? && f.session != l.session.id)
    && r.session.open && !r.session.pending && r.session.id == f.session && r.session.challenge == f.payload
    && r.session.helloAck.Some? && r.session.nextMessage == l.session.nextMessage && r.window == Negotiated(l, f)
    && (l.session.pending ==> !r.tx.active)
  }

  // handle_hello_ack opens the session this link proposed.
  predicate Confirms(l: Link, f: Frame, r: Link)
    requires Shape(l)
  {
    && f.kind == HELLO_ACK && CapabilityProfile(f.value) == l.cfg.profile
    && l.session.pending && f.session == l.session.id && f.payload == l.session.challenge
    && r.session == l.session.(pending := false, open := true) && r.window == Negotiated(l, f)
  }

  predicate Forgets(l: Link, r: Link) {
    !r.session.open && !r.session.pending && r.session.id == 0 && r.session.helloAck.None? && r.window == l.window
      && !r.tx.active
  }

  predicate SessionStep(l: Link, i: Input, r: Link)
    requires Shape(l)
  {
    if i.Restart? then Forgets(l, r)
    else
      || SameSession(l, r)
      || (i.Submit? && Proposes(l, r, i.entropy))
      || (i.Tick? && Abandons(l, r))
      || (i.Receive? && HeardFrame(l, i.raw).Some? && Adopts(l, HeardFrame(l, i.raw).value, r))
      || (i.Receive? && HeardFrame(l, i.raw).Some? && Confirms(l, HeardFrame(l, i.raw).value, r))
  }

  lemma ResumeSession(l: Link, retransmission: bool)
    requires Shape(l)
    ensures var r := StartOrResume(l, retransmission);
      r.session == l.session && r.window == l.window && r.tx.active == l.tx.active
  {
    hide StartOrResume;
    ResumeFrame(l, retransmission);
  }

  lemma OpenSessionSession(l: Link, entropy: Option<Entropy>)
    requires Shape(l) && !l.session.open && !l.session.pending && l.cfg.role.Initiator?
    requires entropy.Some? ==> |entropy.value.challenge| == CHALLENGE_BYTES
    ensures var (r, status) := OpenSession(l, entropy);
      && r.tx == l.tx && r.window == l.window
      && if entropy.None? then r == l && status != Success
         else r.session == l.session.(id := if entropy.value.session == 0 then 1 else entropy.value.session,
                                      challenge := entropy.value.challenge, pending := status == Success,
                                        helloRetries := r.session.helloRetries)
  {
    hide HelloFrame, Canonical, Recompute;
  }

  lemma SendSession(l: Link, message: seq<byte>, entropy: Option<Entropy>)
    requires Shape(l)
    requires entropy.Some? ==> |entropy.value.challenge| == CHALLENGE_BYTES
    ensures var r := Send(l, message, entropy).0; SameSession(l, r) || Proposes(l, r, entropy)
  {
    hide StartOrResume, OpenSession;
    if |message| <= l.cfg.maxMessage && !l.tx.active {
      Timers.LoadKeeps(l, message);
      ResumeSession(Load(l, message), false);
      if !l.session.open && !l.session.pending
        && l.cfg.role.Initiator? { OpenSessionSession(Load(l, message), entropy); }
    }
  }

  lemma AdvanceTimeSession(l: Link, time: nat)
    requires Shape(l)
    ensures var r := AdvanceTime(l, time); SameSession(l, r) || Abandons(l, r)
  {
    hide StartOrResume, HelloFrame, CancelFrame, Canonical, NoneSet, NoSegments, BackOff;
    var fired := l.(timer := l.timer.(now := if time > l.timer.now then time else l.timer.now, deadline := None));
    ResumeSession(Expired(fired), true);
  }

  lemma AnsweredSession(l: Link, reply: Frame)
    requires Shape(l)
    ensures var r := Answered(l, reply);
      && r.session == l.session.(helloAck := Some(reply), open := true) && r.window == l.window
        && r.tx.active == l.tx.active
  {
    hide StartOrResume, Recompute;
    var begun := QueueRow(l, Sent(reply))
      .(session := l.session.(helloAck := Some(reply), open := true),
        timer := Recompute(l.timer, l.cfg.airtime, l.window));
    ResumeSession(begun, false);
  }

  lemma AdoptSessionSession(l: Link, f: Frame)
    requires Shape(l) && f.kind == HELLO && Canonical(f)
    ensures var r := AdoptSession(l, f).0;
      && r.session.open && r.session.pending == l.session.pending && r.session.id == f.session
        && r.session.challenge == f.payload
      && r.session.helloAck.Some? && r.session.nextMessage == l.session.nextMessage && r.window == Negotiated(l, f)
      && r.tx.active == l.tx.active
  {
    hide Canonical, Answered, HelloAckFrame, Negotiated;
    HelloFramesCanonical(Named(l, f), f.message);
    AnsweredSession(Named(l, f), HelloAckFrame(Named(l, f), f.message));
  }

  lemma CollideSession(l: Link, f: Frame)
    requires Shape(l) && l.session.pending && f.kind == HELLO && Canonical(f)
      && CapabilityProfile(f.value) == l.cfg.profile
    ensures var r := Collide(l, f).0; SameSession(l, r) || Adopts(l, f, r)
  {
    hide Canonical, AdoptSession, NoneSet, NoSegments, Negotiated, CapabilityProfile, Below;
    if Below(f.session, l.session.id) {
      AdoptSessionSession(Yield(l), f);
      SameOffer(l, Yield(l), f);
    }
  }

  // What a HELLO negotiates depends on the window alone.
  lemma SameOffer(l: Link, m: Link, f: Frame)
    requires Shape(l) && Shape(m) && m.window == l.window
    ensures Negotiated(l, f) == Negotiated(m, f)
  {
  }

  lemma ReplaceSession(l: Link, f: Frame)
    requires Shape(l) && !l.session.pending && f.kind == HELLO && Canonical(f)
      && CapabilityProfile(f.value) == l.cfg.profile
    requires l.session.open ==> l.cfg.role.Responder? && f.session != l.session.id
    ensures Adopts(l, f, Replace(l, f).0) && Adopts(l, f, AdoptSession(l, f).0)
  {
    hide Canonical, AdoptSession, NoneSet, NoSegments, NoDuplicates, Negotiated, CapabilityProfile;
    var emptied := l.(rx := ClearRx(l.rx), dup := NoDuplicates());
    AdoptSessionSession(emptied, f);
    AdoptSessionSession(l, f);
    SameOffer(l, emptied, f);
  }

  lemma HandleHelloSession(l: Link, f: Frame)
    requires Inv(l) && f.kind == HELLO && Canonical(f)
    ensures var r := HandleHello(l, f).0; SameSession(l, r) || Adopts(l, f, r)
  {
    hide Canonical, AdoptSession, Collide, Replace, Adopts, TxInv, RxInv, RowsInv, CapabilityProfile;
    if CapabilityProfile(f.value) == l.cfg.profile {
      if l.session.pending {
        CollideSession(l, f);
      } else if l.session.open && f.session == l.session.id {
      } else if !(l.session.open && l.cfg.role.Initiator?) {
        ReplaceSession(l, f);
      }
    }
  }

  lemma HandleHelloAckSession(l: Link, f: Frame)
    requires Shape(l) && f.kind == HELLO_ACK
    ensures var r := HandleHelloAck(l, f).0; SameSession(l, r) || Confirms(l, f, r)
  {
    hide StartOrResume;
    var window := Negotiated(l, f);
    ResumeSession(l.(session := l.session.(pending := false, open := true), window := window,
                     timer := Recompute(l.timer, l.cfg.airtime, window).(deadline := None)), false);
  }

  lemma HandleAckSession(l: Link, f: Frame)
    requires Shape(l)
    ensures SameSession(l, HandleAck(l, f).0)
  {
    hide StartOrResume, MarkAcked, Recompute;
    if l.tx.active {
      ResumeSession(l.(tx := MarkAcked(l.tx, f), timer := Recompute(l.timer, l.cfg.airtime, l.window)), false);
    }
  }

  lemma StoreSegmentSession(l: Link, f: Frame)
    requires Shape(l) && f.kind == DATA && Canonical(f)
    ensures var r := StoreSegment(l, f).0; r.session == l.session && r.window == l.window
  {
    hide Canonical, PartialAck, AckDue, Accepted, DupStore, Stored;
  }

  lemma HandleDataSession(l: Link, f: Frame)
    requires Shape(l) && f.kind == DATA && Canonical(f)
    ensures SameSession(l, HandleData(l, f).0)
  {
    hide Canonical, DupLookup, StoreSegment;
    var looked := l.(dup := DupLookup(l.dup, l.timer.now, f.session, f.message).0);
    StoreSegmentSession(looked, f);
    StoreSegmentSession(looked.(rx := ClearRx(l.rx)), f);
  }

  lemma HandleFrameSession(l: Link, f: Frame)
    requires Inv(l) && Canonical(f)
    ensures var r := HandleFrame(l, f).0; SameSession(l, r) || Adopts(l, f, r) || Confirms(l, f, r)
  {
    hide TxInv, RxInv, RowsInv, SessionInv, Canonical, HandleHello, HandleHelloAck, HandleData, HandleAck, DupLookup,
      DupStore, Adopts, Confirms;
    if f.kind == HELLO {
      HandleHelloSession(l, f);
    } else if f.kind == HELLO_ACK {
      HandleHelloAckSession(l, f);
    } else if f.kind == DATA {
      HandleDataSession(l, f);
    } else if f.kind == ACK {
      HandleAckSession(l, f);
    }
  }

  lemma HearSession(l: Link, raw: Codec.Raw)
    requires Inv(l)
    ensures SessionStep(l, Receive(raw), Hear(l, raw).0)
  {
    hide TxInv, RxInv, RowsInv, HandleFrame, Canonical, Codec.Decode;
    var noted := l.(heard := Some(Heard(raw, l.timer.now)));
    if HeardFrame(l, raw).Some? {
      NotedInv(l, noted.heard);
      HandleFrameSession(noted, HeardFrame(l, raw).value);
    }
  }

  /** Every event keeps the session, proposes one, gives one up, takes one over, confirms one, or forgets it. */
  lemma StepSession(l: Link, i: Input)
    requires Inv(l) && ValidInput(i)
    ensures SessionStep(l, i, Step(l, i).0)
  {
    hide TxInv, RxInv, SessionInv, RowsInv, Send, AdvanceTime, Hear, HeardFrame, Recompute, Canonical, CancelFrame,
      NoneSet, NoSegments, Proposes, Abandons, Adopts, Confirms;
    match i
    case Submit(message, entropy) => SendSession(l, message, entropy);
    case Tick(time) => AdvanceTimeSession(l, time);
    case Receive(raw) => HearSession(l, raw);
    case Announce(_) =>
    case Abort(_) =>
    case Transmit =>
    case Take(_) =>
    case Restart =>
  }

  /** The window never grows, and stays within 1..16. */
  lemma WindowNeverGrows(l: Link, i: Input)
    requires Inv(l) && ValidInput(i)
    ensures var r := Step(l, i).0; MIN_WINDOW <= r.window <= l.window
  {
    hide TxInv, RxInv, SessionInv, RowsInv, Step, HeardFrame;
    StepSession(l, i);
  }
}
