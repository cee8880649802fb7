/**
  Bounded failure: an opening nobody answers, or a transfer nobody acknowledges, ends in KAL_ERR_TIMEOUT after
  max_retries + 1 expiries, whatever else is heard or asked for meanwhile.
 */
module Exhaustion {
  import opened Bytes
  import opened Wire
  import opened LinkSpec
  import opened Reachable
  import opened Invariant
  import opened Effects
  import opened DupCache
  import Codec
  import Sessions
  import Timers

  // ------------------------------------------------------------ events that answer nothing

  // handle_ack accepts the acknowledgement.
  predicate Answers(l: Link, f: Frame) {
    && f.kind == ACK && l.tx.active && f.session == l.session.id && f.message == l.tx.message
    && if Flagged(f) then f.sequence == l.tx.total else f.sequence <= l.tx.total
  }

  // handle_hello takes the session of the HELLO over.
  predicate Opens(l: Link, f: Frame) {
    && f.kind == HELLO && CapabilityProfile(f.value) == l.cfg.profile
    && if l.session.pending then Below(f.session, l.session.id)
       else l.session.open ==> l.cfg.role.Responder? && f.session != l.session.id
  }

  // handle_hello_ack takes the HELLO_ACK for an answer to this link's proposal.
  predicate Settles(l: Link, f: Frame) {
    && f.kind == HELLO_ACK && CapabilityProfile(f.value) == l.cfg.profile
    && l.session.pending && f.session == l.session.id && f.payload == l.session.challenge
  }

  predicate CancelsSession(l: Link, f: Frame) {
    f.kind == CANCEL && l.session.open && f.session == l.session.id
  }

  // Anything but a reset, a kal_cancel that is accepted, and a frame that acknowledges the transfer, changes the
  // session or cancels it. Noise, repeats, DATA, beacons, frames that are refused and calls of the application are all
  // quiet.
  predicate Quiet(l: Link, i: Input) {
    match i
    case Restart => false
    case Abort(reason) => reason > CANCEL_REASON_MAX
    case Receive(raw) =>
      HeardFrame(l, raw).Some? ==>
        var f := HeardFrame(l, raw).value;
        !Answers(l, f) && !Opens(l, f) && !Settles(l, f) && !CancelsSession(l, f)
    case _ => true
  }

  predicate QuietRun(l: Link, inputs: seq<Input>)
    requires Shape(l) && ValidInputs(inputs)
    decreases |inputs|
  {
    inputs == [] ||
    var n := |inputs| - 1;
    QuietRun(l, inputs[..n]) && Quiet(Run(l, inputs[..n]), inputs[n])
  }

  // Session and deadline are as they were, and so is a transfer under way.
  predicate Untouched(l: Link, r: Link) {
    r.cfg == l.cfg && r.session == l.session && r.timer == l.timer && (l.tx.active ==> r.tx == l.tx)
  }

  lemma SendUntouched(l: Link, message: seq<byte>, entropy: Option<Entropy>)
    requires Shape(l) && (l.tx.active || l.session.pending)
    requires entropy.Some? ==> |entropy.value.challenge| == CHALLENGE_BYTES
    ensures Untouched(l, Send(l, message, entropy).0) || l.session.open
    ensures l.tx.active ==> Send(l, message, entropy).0 == l
  {
    hide Load, Shape, StartOrResume;
    if |message| <= l.cfg.maxMessage && !l.tx.active { Timers.LoadKeeps(l, message); }
  }

  lemma DataUntouched(l: Link, f: Frame)
    requires Inv(l) && f.kind == DATA && Canonical(f)
    ensures Untouched(l, HandleData(l, f).0)
  {
    hide TxInv, RxInv, SessionInv, RowsInv, Canonical, HandleData, Shape, Originated, IsData;
    Timers.HandleDataSteady(l, f);
    HandleDataEffect(l, f);
    DataSession(l, f);
  }

  lemma DataSession(l: Link, f: Frame)
    requires Shape(l) && f.kind == DATA && Canonical(f)
    ensures HandleData(l, f).0.session == l.session
  {
    hide Canonical, DupLookup, StoreSegment;
    var looked := l.(dup := DupLookup(l.dup, l.timer.now, f.session, f.message).0);
    Sessions.StoreSegmentSession(looked, f);
    Sessions.StoreSegmentSession(looked.(rx := ClearRx(l.rx)), f);
  }

  lemma HelloUntouched(l: Link, f: Frame)
    requires Inv(l) && f.kind == HELLO && Canonical(f) && !Opens(l, f)
    ensures Untouched(l, HandleHello(l, f).0)
  {
    hide TxInv, RxInv, RowsInv, Canonical, AdoptSession, CapabilityProfile, Below, Shape;
  }

  lemma FrameUntouched(l: Link, f: Frame)
    requires Inv(l) && Canonical(f)
    requires !Answers(l, f) && !Opens(l, f) && !Settles(l, f) && !CancelsSession(l, f)
    ensures Untouched(l, HandleFrame(l, f).0)
  {
    hide TxInv, RxInv, RowsInv, SessionInv, Canonical, HandleHello, HandleData, StartOrResume, MarkAcked, Recompute,
      Negotiated, CapabilityProfile, DupLookup, DupStore, Opens, Shape;
    if f.kind == HELLO {
      HelloUntouched(l, f);
    } else if f.kind == DATA {
      DataUntouched(l, f);
    }
  }

  lemma HearUntouched(l: Link, raw: Codec.Raw)
    requires Inv(l) && Quiet(l, Receive(raw))
    ensures Untouched(l, Hear(l, raw).0)
  {
    hide TxInv, RxInv, RowsInv, SessionInv, HandleFrame, Canonical, Codec.Decode, CapabilityProfile, Below;
    var noted := l.(heard := Some(Heard(raw, l.timer.now)));
    if HeardFrame(l, raw).Some? {
      NotedInv(l, noted.heard);
      FrameUntouched(noted, HeardFrame(l, raw).value);
    }
  }

  /** A quiet event other than the passing of time leaves an opening and a transfer as they are. */
  lemma QuietUntouched(l: Link, i: Input)
    requires Inv(l) && ValidInput(i) && Quiet(l, i) && !i.Tick? && (l.tx.active || l.session.pending)
    ensures Untouched(l, Step(l, i).0)
  {
    hide TxInv, RxInv, RowsInv, Send, AdvanceTime, Hear, Reset, HeardFrame;
    match i
    case Submit(message, entropy) => SendUntouched(l, message, entropy);
    case Announce(payload) =>
    case Abort(reason) =>
    case Receive(raw) => HearUntouched(l, raw);
    case Transmit =>
    case Take(capacity) =>
  }

  // ------------------------------------------------------------ an opening

  // The deadlines that expire in a run.
  function Expirations(l: Link, inputs: seq<Input>): nat
    requires Shape(l) && ValidInputs(inputs)
    decreases |inputs|
  {
    if inputs == [] then 0
    else
      var n := |inputs| - 1;
      Expirations(l, inputs[..n]) + (if inputs[n].Tick? && Due(Run(l, inputs[..n]), inputs[n].time) then 1 else 0)
  }

  lemma StepTick(l: Link, time: nat)
    requires Shape(l)
    ensures Step(l, Tick(time)).0 == AdvanceTime(l, time)
  {
    hide Shape, Send, Beacon, Cancel, AdvanceTime, Hear, TakeRow, Collect, Reset;
  }

  // An opening that has spent k of its retries.
  predicate Opening(l: Link, k: nat) {
    l.session.pending && l.session.helloRetries == k && l.timer.deadline.Some?
  }

  // The sender gave up.
  predicate GaveUp(l: Link) {
    !l.session.pending && !l.tx.active && l.tx.status == Timeout && l.timer.deadline.None?
  }

  /** Without room, or with every segment acknowledged, the deadline is gone: from then on time alone changes nothing.
      */
  lemma UnarmedStalls(l: Link, time: nat)
    requires Shape(l) && l.timer.deadline.None?
    ensures AdvanceTime(l, time) == l.(timer := l.timer.(now := if time > l.timer.now then time else l.timer.now))
  {
  }

  // Somewhere in the run the deadline expired for the (max_retries + 1)-st time, and there the sender gave up.
  ghost predicate GivesUp(l: Link, inputs: seq<Input>)
    requires Shape(l) && ValidInputs(inputs)
  {
    exists n: nat :: n <= |inputs| && GivesUpAt(l, inputs[..n])
  }

  predicate GivesUpAt(l: Link, inputs: seq<Input>)
    requires Shape(l) && ValidInputs(inputs)
  {
    Expirations(l, inputs) == l.cfg.maxRetries + 1 && GaveUp(Run(l, inputs))
  }

  lemma GivesUpLater(l: Link, inputs: seq<Input>, n: nat)
    requires Shape(l) && ValidInputs(inputs) && n <= |inputs| && GivesUp(l, inputs[..n])
    ensures GivesUp(l, inputs)
  {
    hide Shape, GivesUpAt;
    var m: nat :| m <= |inputs[..n]| && GivesUpAt(l, inputs[..n][..m]);
    assert inputs[..n][..m] == inputs[..m];
  }

  lemma GivesUpNow(l: Link, inputs: seq<Input>)
    requires Shape(l) && ValidInputs(inputs) && GivesUpAt(l, inputs)
    ensures GivesUp(l, inputs)
  {
    hide Shape, GivesUpAt;
    assert inputs[..|inputs|] == inputs;
  }

  lemma OpeningTick(l: Link, time: nat, k: nat)
    requires Shape(l) && Opening(l, k)
    ensures var r := AdvanceTime(l, time);
      && r.cfg == l.cfg
      && if Due(l, time) then if k >= l.cfg.maxRetries then GaveUp(r) else Opening(r, k + 1) else Opening(r, k)
  {
    hide HelloFrame, Canonical, BackOff, NoneSet, NoSegments;
  }

  lemma OpeningStep(l: Link, i: Input, k: nat)
    requires Inv(l) && ValidInput(i) && Quiet(l, i) && Opening(l, k)
    ensures var r := Step(l, i).0;
      && r.cfg == l.cfg
      && if i.Tick? && Due(l, i.time) then if k >= l.cfg.maxRetries then GaveUp(r) else Opening(r, k + 1)
        else Opening(r, k)
  {
    hide Step, AdvanceTime, TxInv, RxInv, SessionInv, RowsInv, Quiet, Due, GaveUp;
    if i.Tick? {
      StepTick(l, i.time);
      OpeningTick(l, i.time, k);
    } else {
      QuietUntouched(l, i);
    }
  }

  /** An opening nobody answers, whatever else is heard or asked for: it survives exactly max_retries expiries and ends
      in KAL_ERR_TIMEOUT at the next, whatever the state of the ring. */
  lemma {:induction false} OpeningEndsInTimeout(l: Link, inputs: seq<Input>)
    requires Inv(l) && ValidInputs(inputs) && QuietRun(l, inputs) && Opening(l, 0)
    ensures var k := Expirations(l, inputs);
            if k <= l.cfg.maxRetries then Opening(Run(l, inputs), k) else GivesUp(l, inputs)
    ensures Inv(Run(l, inputs)) && Run(l, inputs).cfg == l.cfg
    decreases |inputs|
  {
    hide Opening, GaveUp, Step, Due, Inv, Quiet, GivesUp;
    InvShape(l);
    if inputs != [] {
      var n := |inputs| - 1;
      OpeningEndsInTimeout(l, inputs[..n]);
      var before, k := Run(l, inputs[..n]), Expirations(l, inputs[..n]);
      assert ValidInput(inputs[n]);
      StepInv(before, inputs[n]);
      ConfigKept(before, inputs[n]);
      if k <= l.cfg.maxRetries {
        OpeningStep(before, inputs[n], k);
        if GaveUp(Run(l, inputs)) && Expirations(l, inputs) > l.cfg.maxRetries { GivesUpNow(l, inputs); }
      } else {
        GivesUpLater(l, inputs, n);
      }
    }
  }

  lemma ConfigKept(l: Link, i: Input)
    requires Inv(l) && ValidInput(i)
    ensures Step(l, i).0.cfg == l.cfg
  {
    hide Step, TxInv, RxInv, SessionInv, RowsInv, Timers.Backs, Timers.SameTimeout, Timers.Fresh;
    Timers.StepTimer(l, i);
  }

  // ------------------------------------------------------------ a transfer

  // A transfer on air that has spent k of its retries and still has an unacknowledged segment.
  predicate Trying(l: Link, k: nat) {
    && !l.session.pending && l.tx.active && l.tx.started && l.tx.retries == k && l.timer.deadline.Some?
    && l.tx.base < l.tx.total
  }

  // Every expiry of the run that resends finds room in the ring.
  predicate RoomAtExpiries(l: Link, inputs: seq<Input>)
    requires Shape(l) && ValidInputs(inputs)
    decreases |inputs|
  {
    inputs == [] ||
    var n := |inputs| - 1;
    RoomAtExpiries(l, inputs[..n]) && (inputs[n].Tick? && Retries(Run(l, inputs[..n]), inputs[n].time) ==>
                                         |Run(l, inputs[..n]).out| < OUT_QUEUE_FRAMES)
  }

  /** An expiry with retries left arms the next deadline exactly when the ring has room and a segment is unacknowledged.
      */
  lemma ExpiryRearms(l: Link, time: nat)
    requires Inv(l) && Retries(l, time)
    ensures var r := AdvanceTime(l, time);
      && r.tx.retries == l.tx.retries + 1 && r.tx.active && r.tx.started && r.tx.base == l.tx.base
        && r.tx.total == l.tx.total
      && r.session == l.session && r.cfg == l.cfg
      && (r.timer.deadline.Some? <==> |l.out| < OUT_QUEUE_FRAMES && l.tx.base < l.tx.total)
  {
    hide TxInv, RxInv, SessionInv, RowsInv, QueueFrom, DataFrame;
    var fired := l.(timer := l.timer.(now := if time > l.timer.now then time else l.timer.now, deadline := None));
    RetimedInv(l, fired.timer);
    ExpiredInv(fired);
    var e := Expired(fired);
    QueueFromFrame(e, e.tx.base, 0);
    QueuesSome(e);
  }

  // The queue loop puts something on the ring exactly when it can.
  lemma QueuesSome(l: Link)
    requires Shape(l) && TxInv(l.tx) && forall i | 0 <= i < MAX_SEGMENTS :: !l.tx.inflight[i]
    ensures QueueFrom(l, l.tx.base, 0).1 > 0 <==> |l.out| < OUT_QUEUE_FRAMES && l.tx.base < l.tx.total
  {
    hide QueueFrom, DataFrame, Fits;
    QueueFromTurn(l, l.tx.base, 0);
    if Queues(l, l.tx.base, 0) {
      QueueFromFrame(Marked(l, l.tx.base), l.tx.base + 1, 1);
    }
  }

  lemma TryingTick(l: Link, time: nat, k: nat)
    requires Inv(l) && Trying(l, k)
    requires Retries(l, time) ==> |l.out| < OUT_QUEUE_FRAMES
    ensures var r := AdvanceTime(l, time);
      && r.cfg == l.cfg
      && if Due(l, time) then if k >= l.cfg.maxRetries then GaveUp(r) else Trying(r, k + 1) else Trying(r, k)
  {
    hide TxInv, RxInv, SessionInv, RowsInv, StartOrResume, CancelFrame, Canonical, BackOff, NoneSet, NoSegments;
    if Retries(l, time) { ExpiryRearms(l, time); }
  }

  lemma TryingStep(l: Link, i: Input, k: nat)
    requires Inv(l) && ValidInput(i) && Quiet(l, i) && Trying(l, k)
    requires i.Tick? && Retries(l, i.time) ==> |l.out| < OUT_QUEUE_FRAMES
    ensures var r := Step(l, i).0;
      && r.cfg == l.cfg
      && if i.Tick? && Due(l, i.time) then if k >= l.cfg.maxRetries then GaveUp(r) else Trying(r, k + 1)
        else Trying(r, k)
  {
    hide Step, AdvanceTime, TxInv, RxInv, SessionInv, RowsInv, Quiet, Due, GaveUp;
    if i.Tick? {
      StepTick(l, i.time);
      TryingTick(l, i.time, k);
    } else {
      QuietUntouched(l, i);
    }
  }

  /** A transfer nobody acknowledges, whatever else is heard or asked for: it survives max_retries further expiries and
      ends in KAL_ERR_TIMEOUT at the next, provided each of the former finds room in the ring. */
  lemma {:induction false} TransferEndsInTimeout(l: Link, inputs: seq<Input>)
    requires Inv(l) && ValidInputs(inputs) && QuietRun(l, inputs) && Trying(l, 0)
    requires RoomAtExpiries(l, inputs)
    ensures var k := Expirations(l, inputs);
            if k <= l.cfg.maxRetries then Trying(Run(l, inputs), k) else GivesUp(l, inputs)
    ensures Inv(Run(l, inputs)) && Run(l, inputs).cfg == l.cfg
    decreases |inputs|
  {
    hide Trying, GaveUp, Step, Due, Inv, Quiet, GivesUp;
    InvShape(l);
    if inputs != [] {
      var n := |inputs| - 1;
      TransferEndsInTimeout(l, inputs[..n]);
      var before, k := Run(l, inputs[..n]), Expirations(l, inputs[..n]);
      assert ValidInput(inputs[n]);
      StepInv(before, inputs[n]);
      ConfigKept(before, inputs[n]);
      if k <= l.cfg.maxRetries {
        TryingStep(before, inputs[n], k);
        if GaveUp(Run(l, inputs)) && Expirations(l, inputs) > l.cfg.maxRetries { GivesUpNow(l, inputs); }
      } else {
        GivesUpLater(l, inputs, n);
      }
    }
  }

  /** kal_cancel while a session is being opened leaves the opening pending with no deadline: it neither completes its
      retries nor ends, however much time passes. */
  lemma CancelLeavesOpeningStuck(l: Link, reason: u16, time: nat)
    requires Shape(l) && l.session.pending && reason <= CANCEL_REASON_MAX
    ensures var c := Cancel(l, reason).0;
      && c.session.pending && c.timer.deadline.None?
      && AdvanceTime(c, time).session.pending && AdvanceTime(c, time).timer.deadline.None?
        && AdvanceTime(c, time).out == c.out
  {
    hide CancelFrame, Canonical;
  }

  /** Nor does anything else that leaves the session alone end it, a later kal_send included: through any quiet run an
      opening without a deadline stays pending without one. */
  lemma {:induction false} StuckStays(l: Link, inputs: seq<Input>)
    requires Inv(l) && ValidInputs(inputs) && QuietRun(l, inputs) && l.session.pending && l.timer.deadline.None?
    ensures var r := Run(l, inputs);
      Inv(r) && r.session == l.session && r.timer.deadline.None? && (l.tx.active ==> r.tx == l.tx)
    decreases |inputs|
  {
    hide Step, Due, Inv, Quiet;
    InvShape(l);
    if inputs != [] {
      var n := |inputs| - 1;
      StuckStays(l, inputs[..n]);
      var before := Run(l, inputs[..n]);
      assert ValidInput(inputs[n]);
      StepInv(before, inputs[n]);
      if inputs[n].Tick? {
        StepTick(before, inputs[n].time);
        UnarmedStalls(before, inputs[n].time);
      } else {
        QuietUntouched(before, inputs[n]);
      }
    }
  }
}
