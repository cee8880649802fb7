/**
  The staged message: what puts one there, what takes it away, and that kal_receive hands each over once.
 */
module Mailbox {
  import opened Bytes
  import opened Wire
  import opened LinkSpec
  import opened Reachable
  import opened Invariant
  import opened Effects
  import opened Integrity
  import opened Receiving
  import opened DupCache
  import Answers
  import Codec
  import Timers

  // A frame heard delivers a message or a beacon.
  predicate Arrives(l: Link, i: Input)
    requires Shape(l) && ValidInput(i)
  {
    i.Receive? && Step(l, i).1 == Delivered
  }

  // kal_receive hands the staged message over.
  predicate Collects(l: Link, i: Input)
    requires Shape(l) && ValidInput(i)
  {
    i.Take? && Step(l, i).1 == Success
  }

  lemma FrameStages(l: Link, f: Frame)
    requires Inv(l) && Canonical(f)
    ensures var (r, status) := HandleFrame(l, f);
            if status == Delivered then r.delivery.ready && (l.delivery.ready ==> l.rx.active)
            else r.delivery == l.delivery
  {
    hide TxInv, RxInv, RowsInv, SessionInv, Canonical, HandleData, Answered, DupLookup, DupStore, StartOrResume,
      MarkAcked, Recompute, NoneSet, NoSegments, CapabilityProfile, CapabilityWindow, Verified;
    if f.kind == HELLO {
      AdoptSessionPassive(l, f);
      AdoptSessionPassive(Yield(l), f);
      AdoptSessionPassive(l.(rx := ClearRx(l.rx), dup := NoDuplicates()), f);
    } else if f.kind == HELLO_ACK {
      var window := Negotiated(l, f);
      ResumePassive(l.(session := l.session.(pending := false, open := true), window := window,
                       timer := Recompute(l.timer, l.cfg.airtime, window).(deadline := None)), false);
    } else if f.kind == DATA {
      DeliveryImpliesIntegrity(l, f);
    } else if f.kind == ACK && l.tx.active {
      ResumePassive(l.(tx := MarkAcked(l.tx, f), timer := Recompute(l.timer, l.cfg.airtime, l.window)), false);
    }
  }

  lemma SendLeaves(l: Link, message: seq<byte>, entropy: Option<Entropy>)
    requires Shape(l) && (entropy.Some? ==> |entropy.value.challenge| == CHALLENGE_BYTES)
    ensures Send(l, message, entropy).0.delivery == l.delivery
  {
    hide Load, StartOrResume, OpenSession, NoneSet, NoSegments;
    if |message| <= l.cfg.maxMessage && !l.tx.active {
      Timers.LoadKeeps(l, message);
      ResumePassive(Load(l, message), false);
      OpenSessionPassive(Load(l, message), entropy);
    }
  }

  lemma TickLeaves(l: Link, time: nat)
    requires Shape(l)
    ensures AdvanceTime(l, time).delivery == l.delivery
  {
    hide StartOrResume, HelloFrame, CancelFrame, Canonical, NoneSet, NoSegments, BackOff;
    ResumePassive(Expired(l.(timer := l.timer.(now := if time > l.timer.now then time else l.timer.now,
                                               deadline := None))), true);
  }

  /** A message is staged by the frame that delivers it, and stays as it is until it is collected, the link is reset, or
      the message being reassembled meanwhile takes its place. */
  lemma StepStages(l: Link, i: Input)
    requires Inv(l) && ValidInput(i)
    ensures var r := Step(l, i).0;
      if Arrives(l, i) then r.delivery.ready && (l.delivery.ready ==> l.rx.active)
      else if Collects(l, i) then l.delivery.ready && !r.delivery.ready
      else if i.Restart? then !r.delivery.ready
      else r.delivery == l.delivery
  {
    hide TxInv, RxInv, RowsInv, SessionInv, Send, AdvanceTime, HandleFrame, Codec.Decode, Canonical, CancelFrame,
      NoneSet, NoSegments, Recompute;
    match i
    case Submit(message, entropy) => SendLeaves(l, message, entropy);
    case Tick(time) => TickLeaves(l, time);
    case Receive(raw) =>
      if HeardFrame(l, raw).Some? {
        NotedInv(l, Some(Heard(raw, l.timer.now)));
        FrameStages(l.(heard := Some(Heard(raw, l.timer.now))), HeardFrame(l, raw).value);
      }
    case Announce(_) =>
    case Abort(_) =>
    case Transmit =>
    case Take(capacity) => Answers.TakeAnswers(l, capacity);
    case Restart =>
  }

  // What hearing f stages, if anything: the message its last segment completes and verifies, or a beacon not heard
  // before when nothing is waiting.
  function Staging(l: Link, f: Frame): Option<Delivery>
    requires Inv(l) && Canonical(f)
  {
    hide TxInv, RxInv, RowsInv, SessionInv, Canonical, DupLookup, Verified;
    if f.kind == DATA then
      DeliveryImpliesIntegrity(l, f);
      if !Completes(l, f) then None
      else
        match Verified(Whole(Continued(l, f), f), l.cfg.maxMessage)
        case None => None
        case Some(message) => Some(Delivery(true, false, message))
    else if f.kind == BEACON && !l.delivery.ready && DupLookup(l.dup, l.timer.now, f.session, f.message).1.None? then
      Some(Delivery(true, true, f.payload))
    else None
  }

  /** A frame heard is reported delivered exactly when it stages something, and cancelled exactly when it is a CANCEL of
      the open session; what is staged is the verified message or the beacon's payload. */
  lemma ReportedExactly(l: Link, f: Frame)
    requires Inv(l) && Canonical(f)
    ensures var (r, status) := HandleFrame(l, f);
      && (status == Delivered <==> Staging(l, f).Some?)
      && r.delivery == (if Staging(l, f).Some? then Staging(l, f).value else l.delivery)
      && (status == Cancelled <==> f.kind == CANCEL && l.session.open && f.session == l.session.id)
  {
    hide TxInv, RxInv, RowsInv, SessionInv, Canonical, HandleData, Answered, DupLookup, DupStore, StartOrResume,
      MarkAcked, Recompute, NoneSet, NoSegments, CapabilityProfile, CapabilityWindow, Verified, Completes, Continued;
    FrameStages(l, f);
    if f.kind == DATA {
      DeliveryImpliesIntegrity(l, f);
      DataNotCancelled(l, f);
    }
    assert HELLO <= f.kind <= BEACON by { CanonicalExactly(f); }
  }

  lemma DataNotCancelled(l: Link, f: Frame)
    requires Shape(l) && f.kind == DATA && Canonical(f)
    ensures HandleData(l, f).1 != Cancelled
  {
    hide Canonical, DupLookup, DupStore, PartialAck, DeliveredAck, Accepted, AckDue, NoneSet, NoSegments;
  }

  // ------------------------------------------------------------ runs

  function Arrivals(l: Link, inputs: seq<Input>): nat
    requires Shape(l) && ValidInputs(inputs)
    decreases |inputs|
  {
    if inputs == [] then 0
    else
      var n := |inputs| - 1;
      Arrivals(l, inputs[..n]) + (if Arrives(Run(l, inputs[..n]), inputs[n]) then 1 else 0)
  }

  function Collections(l: Link, inputs: seq<Input>): nat
    requires Shape(l) && ValidInputs(inputs)
    decreases |inputs|
  {
    if inputs == [] then 0
    else
      var n := |inputs| - 1;
      Collections(l, inputs[..n]) + (if Collects(Run(l, inputs[..n]), inputs[n]) then 1 else 0)
  }

  function Waiting(l: Link): nat {
    if l.delivery.ready then 1 else 0
  }

  /** Successful collections, with the message still waiting, never outnumber what was delivered. */
  lemma {:induction false} CollectionsBounded(l: Link, inputs: seq<Input>)
    requires Inv(l) && ValidInputs(inputs)
    ensures Collections(l, inputs) + Waiting(Run(l, inputs)) <= Arrivals(l, inputs) + Waiting(l)
    ensures Inv(Run(l, inputs))
    decreases |inputs|
  {
    hide Inv, Step, Arrives, Collects;
    InvShape(l);
    if inputs != [] {
      var n := |inputs| - 1;
      CollectionsBounded(l, inputs[..n]);
      assert ValidInput(inputs[n]);
      StepStages(Run(l, inputs[..n]), inputs[n]);
      StepInv(Run(l, inputs[..n]), inputs[n]);
      NotBoth(Run(l, inputs[..n]), inputs[n]);
    }
  }

  lemma NotBoth(l: Link, i: Input)
    requires Shape(l) && ValidInput(i)
    ensures !(Arrives(l, i) && Collects(l, i))
  {
    hide Step, Shape;
  }

  lemma {:induction false} SomeArrival(l: Link, inputs: seq<Input>) returns (n: nat)
    requires Shape(l) && ValidInputs(inputs) && 0 < Arrivals(l, inputs)
    ensures n < |inputs| && Arrives(Run(l, inputs[..n]), inputs[n])
    decreases |inputs|
  {
    hide Shape, Step, Arrives;
    n := |inputs| - 1;
    if !Arrives(Run(l, inputs[..n]), inputs[n]) {
      var before := inputs[..n];
      n := SomeArrival(l, before);
      assert before[..n] == inputs[..n];
    }
  }

  /** Each staged message is handed over once: between two successful collections another one was delivered. */
  lemma CollectedOnce(l: Link, first: nat, between: seq<Input>, second: nat) returns (n: nat)
    requires Inv(l) && ValidInputs(between) && Collects(l, Take(first))
    requires Collects(Run(Step(l, Take(first)).0, between), Take(second))
    ensures n < |between| && Arrives(Run(Step(l, Take(first)).0, between[..n]), between[n])
  {
    hide Inv, Step, Arrives, Collects, Run, Arrivals, Collections;
    InvShape(l);
    var emptied := Step(l, Take(first)).0;
    StepStages(l, Take(first));
    StepInv(l, Take(first));
    NotBoth(l, Take(first));
    CollectionsBounded(emptied, between);
    StepStages(Run(emptied, between), Take(second));
    NotBoth(Run(emptied, between), Take(second));
    n := SomeArrival(emptied, between);
  }
}
