/**
  Backoff: the deadline doubles up to eight times its base, and the base is recomputed from the airtime.
 */
module Timers {
  import opened Bytes
  import opened Wire
  import opened LinkSpec
  import opened Reachable
  import opened Invariant
  import opened Effects
  import Codec

  // ------------------------------------------------------------ the backoff sequence

  function Doublings(k: nat): nat {
    if k == 0 then 1 else if k == 1 then 2 else if k == 2 then 4 else 8
  }

  // Pow2 capped at the ceiling multiplier.
  lemma {:induction false} DoublingsIsCappedPower(k: nat)
    ensures Doublings(k) == if Pow2(k) > TIMEOUT_CEILING_MULT then TIMEOUT_CEILING_MULT else Pow2(k)
    decreases k
  {
    if k > 3 {
      DoublingsIsCappedPower(k - 1);
      Pow2Positive(k - 1);
    } else {
      assert Pow2(1) == 2 && Pow2(2) == 4 && Pow2(3) == 8;
    }
  }

  predicate TimerInv(t: Timer, airtime: nat, k: nat) {
    && 2 * airtime <= t.base && 10 * airtime <= 4 * t.base + 3 && 1 <= t.base
    && t.ceiling == TIMEOUT_CEILING_MULT * t.base
    && t.timeout == Doublings(k) * t.base
  }

  // A timeout as recompute_timeouts leaves it: at least two and a half airtimes, but for the truncated division.
  predicate Fresh(t: Timer, airtime: nat) {
    && 2 * airtime <= t.base && 10 * airtime <= 4 * t.base + 3 && 1 <= t.base
    && t.ceiling == TIMEOUT_CEILING_MULT * t.base && t.timeout == t.base
  }

  lemma RecomputeClock(t: Timer, airtime: nat, n: nat)
    ensures Recompute(t, airtime, n).now == t.now && Recompute(t, airtime, n).deadline == t.deadline
  {
  }

  lemma RecomputeInv(t: Timer, airtime: nat, inFlight: nat)
    requires 0 < airtime
    ensures Fresh(Recompute(t, airtime, inFlight), airtime)
  {
    var frames := if inFlight == 0 then 2 else inFlight + 1;
    TwoAtLeast(airtime, frames);
    Division(Airtimes(airtime, frames), 4);
  }

  /** The base is two and a half airtimes exactly when two frames are in flight or the airtime is even: the division by
      four truncates. It is never below the two airtimes of the repeat guard, and equal to them only for one frame of
      one millisecond. */
  lemma BaseExactly(t: Timer, airtime: nat, inFlight: nat)
    requires 0 < airtime
    ensures var base := Recompute(t, airtime, inFlight).base;
      && (2 * base >= 5 * airtime <==> inFlight >= 2 || airtime % 2 == 0)
      && 2 * airtime <= base && (base == 2 * airtime <==> airtime == 1 && inFlight <= 1)
  {
    var frames := if inFlight == 0 then 2 else inFlight + 1;
    TwoAtLeast(airtime, frames);
    Division(Airtimes(airtime, frames), 4);
  }

  // Two airtimes for two frames, three and more for more.
  lemma {:induction false} TwoAtLeast(airtime: nat, frames: nat)
    requires 2 <= frames
    ensures if frames == 2 then Airtimes(airtime, frames) == 2 * airtime else Airtimes(airtime, frames) >= 3 * airtime
    decreases frames
  {
    assert Airtimes(airtime, 1) == airtime;
    if frames > 2 {
      TwoAtLeast(airtime, frames - 1);
    }
  }

  /** The base is five quarters of the time the frames in flight, at least one, and one more take on air. */
  lemma BaseIsFiveQuarters(t: Timer, airtime: nat, inFlight: nat)
    requires 0 < airtime
    ensures var n, r := if inFlight == 0 then 1 else inFlight, Recompute(t, airtime, inFlight);
      && r == t.(base := r.base, timeout := r.base, ceiling := 8 * r.base)
      && r.base == 5 * (airtime * (n + 1)) / 4 && r.base >= airtime * (n + 1)
  {
    var n := if inFlight == 0 then 1 else inFlight;
    AirtimesIsProduct(airtime, n + 1);
    TwoAtLeast(airtime, n + 1);
    Division(Airtimes(airtime, n + 1), 4);
  }

  /** A deadline armed for the frames start_or_resume_tx queues lies five quarters of the time they and one more take on
      air ahead: they can all have left, and an answer have come, before it passes. */
  lemma ResumeAllowsForFrames(l: Link)
    requires Shape(l) && TxInv(l.tx)
    ensures var r := StartOrResume(l, false);
      && |l.out| <= |r.out|
      && var frames := |r.out| - |l.out|;
         if frames == 0 then r.timer == l.timer
         else r.timer.deadline == Some(l.timer.now + 5 * (l.cfg.airtime * (frames + 1)) / 4)
              && r.timer.deadline.value >= l.timer.now + l.cfg.airtime * (frames + 1)
  {
    hide QueueFrom, Recompute, TxInv, DataFrame;
    QueueFromFrame(l, l.tx.base, 0);
    QueueFromQueued(l, l.tx.base, 0);
    BaseIsFiveQuarters(l.timer, l.cfg.airtime, QueueFrom(l, l.tx.base, 0).1);
  }

  // ------------------------------------------------------------ which events touch the timeout

  // A HELLO or DATA deadline that expires with retries left.
  predicate Backs(l: Link, i: Input) {
    i.Tick? && (Retries(l, i.time)
      || (Due(l, i.time) && l.session.pending && l.session.helloRetries < l.cfg.maxRetries))
  }

  predicate SameTimeout(a: Timer, b: Timer) {
    a.base == b.base && a.ceiling == b.ceiling && a.timeout == b.timeout
  }

  // The event keeps the timeout, or recomputes it from the airtime.
  predicate Steady(l: Link, r: Link) {
    r.cfg == l.cfg && (SameTimeout(r.timer, l.timer) || Fresh(r.timer, l.cfg.airtime))
  }

  lemma ResumeTimer(l: Link)
    requires Shape(l)
    ensures SameTimeout(StartOrResume(l, true).timer, l.timer) && Steady(l, StartOrResume(l, false))
    ensures StartOrResume(l, true).cfg == l.cfg
  {
    hide QueueFrom, Recompute;
    QueueFromFrame(l, l.tx.base, 0);
    RecomputeInv(l.timer, l.cfg.airtime, QueueFrom(l, l.tx.base, 0).1);
  }

  lemma OpenSessionSteady(l: Link, entropy: Option<Entropy>)
    requires Shape(l)
    requires entropy.Some? ==> |entropy.value.challenge| == CHALLENGE_BYTES
    ensures Steady(l, OpenSession(l, entropy).0)
  {
    hide Recompute, HelloFrame, Canonical;
    RecomputeInv(l.timer, l.cfg.airtime, 1);
  }

  lemma DispatchSteady(l: Link, entropy: Option<Entropy>)
    requires Shape(l)
    requires entropy.Some? ==> |entropy.value.challenge| == CHALLENGE_BYTES
    ensures Steady(l, Dispatch(l, entropy).0)
  {
    hide StartOrResume, OpenSession, ClearTx, Fresh, Shape;
    ResumeTimer(l);
    OpenSessionSteady(l, entropy);
  }

  lemma LoadKeeps(l: Link, message: seq<byte>)
    requires Shape(l) && |message| <= l.cfg.maxMessage
    ensures |message| <= MAX_MESSAGE_BYTES
    ensures Load(l, message) == l.(tx := Load(l, message).tx)
  {
    hide Chunks, SegmentCount, ClearTx;
  }

  lemma SendSteady(l: Link, message: seq<byte>, entropy: Option<Entropy>)
    requires Shape(l)
    requires entropy.Some? ==> |entropy.value.challenge| == CHALLENGE_BYTES
    ensures Steady(l, Send(l, message, entropy).0)
  {
    hide Dispatch, Load, Fresh, Shape;
    if |message| <= l.cfg.maxMessage && !l.tx.active {
      LoadKeeps(l, message);
      DispatchSteady(Load(l, message), entropy);
    }
  }

  lemma AnsweredSteady(l: Link, reply: Frame)
    requires Shape(l)
    ensures Steady(l, Answered(l, reply))
  {
    hide StartOrResume, Recompute;
    var begun := QueueRow(l, Sent(reply))
      .(session := l.session.(helloAck := Some(reply), open := true),
        timer := Recompute(l.timer, l.cfg.airtime, l.window));
    RecomputeInv(l.timer, l.cfg.airtime, l.window);
    ResumeTimer(begun);
  }

  lemma HandleHelloSteady(l: Link, f: Frame)
    requires Shape(l) && f.kind == HELLO && Canonical(f)
    ensures Steady(l, HandleHello(l, f).0)
  {
    hide HelloAckFrame, Canonical, Answered, QueueRow, NoDuplicates, Negotiated;
    AnsweredSteady(Named(l, f), HelloAckFrame(Named(l, f), f.message));
    AnsweredSteady(Named(Yield(l), f), HelloAckFrame(Named(Yield(l), f), f.message));
    var emptied := l.(rx := ClearRx(l.rx), dup := NoDuplicates());
    AnsweredSteady(Named(emptied, f), HelloAckFrame(Named(emptied, f), f.message));
    ReplaySteady(l);
  }

  lemma ReplaySteady(l: Link)
    requires Shape(l)
    ensures Steady(l, ReplayHelloAck(l))
  {
  }

  lemma HandleHelloAckSteady(l: Link, f: Frame)
    requires Shape(l)
    ensures Steady(l, HandleHelloAck(l, f).0)
  {
    hide StartOrResume, Recompute;
    var window := Negotiated(l, f);
    var begun := l.(session := l.session.(pending := false, open := true), window := window,
                     timer := Recompute(l.timer, l.cfg.airtime, window).(deadline := None));
    RecomputeInv(l.timer, l.cfg.airtime, window);
    ResumeTimer(begun);
  }

  lemma HandleAckSteady(l: Link, f: Frame)
    requires Shape(l)
    ensures Steady(l, HandleAck(l, f).0)
  {
    hide StartOrResume, Recompute, MarkAcked;
    if l.tx.active {
      var marked := l.(tx := MarkAcked(l.tx, f), timer := Recompute(l.timer, l.cfg.airtime, l.window));
      RecomputeInv(l.timer, l.cfg.airtime, l.window);
      ResumeTimer(marked);
    }
  }

  lemma HandleDataSteady(l: Link, f: Frame)
    requires Shape(l) && f.kind == DATA && Canonical(f)
    ensures HandleData(l, f).0.timer == l.timer && HandleData(l, f).0.cfg == l.cfg
  {
    hide Canonical, DupLookup, StoreSegment;
    var looked := l.(dup := DupLookup(l.dup, l.timer.now, f.session, f.message).0);
    StoreSegmentTimer(looked, f);
    StoreSegmentTimer(looked.(rx := ClearRx(l.rx)), f);
  }

  lemma StoreSegmentTimer(l: Link, f: Frame)
    requires Shape(l) && f.kind == DATA && Canonical(f)
    ensures StoreSegment(l, f).0.timer == l.timer && StoreSegment(l, f).0.cfg == l.cfg
  {
    hide Canonical, PartialAck, AckDue, Accepted, DupStore, Stored;
  }

  lemma HandleFrameSteady(l: Link, f: Frame)
    requires Shape(l) && Canonical(f)
    ensures Steady(l, HandleFrame(l, f).0)
  {
    hide Canonical, HandleHello, HandleHelloAck, HandleData, HandleAck, DupLookup, DupStore, Shape;
    if f.kind == HELLO {
      HandleHelloSteady(l, f);
    } else if f.kind == HELLO_ACK {
      HandleHelloAckSteady(l, f);
    } else if f.kind == DATA {
      HandleDataSteady(l, f);
    } else if f.kind == ACK {
      HandleAckSteady(l, f);
    }
  }

  lemma HearSteady(l: Link, raw: Codec.Raw)
    requires Shape(l)
    ensures Steady(l, Hear(l, raw).0)
  {
    hide Fresh, HandleFrame, Canonical, Codec.Decode;
    var noted := l.(heard := Some(Heard(raw, l.timer.now)));
    if Codec.Decode(raw).Good? { HandleFrameSteady(noted, Codec.Decode(raw).frame); }
  }

  lemma AdvanceTimeTimer(l: Link, time: nat)
    requires Shape(l)
    ensures var r := AdvanceTime(l, time);
            r.cfg == l.cfg && if Backs(l, Tick(time)) then SameTimeout(r.timer, BackOff(l.timer))
              else SameTimeout(r.timer, l.timer)
  {
    hide StartOrResume, HelloFrame, CancelFrame, Canonical, NoneSet;
    var fired := l.(timer := l.timer.(now := if time > l.timer.now then time else l.timer.now, deadline := None));
    if Retries(l, time) { ResumeTimer(Expired(fired)); }
  }

  lemma ResetSteady(l: Link)
    requires Shape(l)
    ensures Steady(l, Reset(l))
  {
    hide Recompute, ClearTx, ClearRx, NoDuplicates;
    RecomputeInv(l.timer.(deadline := None), l.cfg.airtime, l.window);
  }

  lemma CallsSteady(l: Link, payload: seq<byte>, reason: u16, capacity: nat)
    requires Shape(l)
    ensures Steady(l, Beacon(l, payload).0) && Steady(l, Cancel(l, reason).0)
    ensures Steady(l, TakeRow(l).0) && Steady(l, Collect(l, capacity).0)
  {
    hide Fresh, Canonical, CancelFrame;
  }

  /** Only an expiry with retries left doubles the timeout; every other event keeps it or recomputes it. */
  lemma StepTimer(l: Link, i: Input)
    requires Shape(l) && ValidInput(i)
    ensures var r := Step(l, i).0;
            r.cfg == l.cfg && if Backs(l, i) then SameTimeout(r.timer, BackOff(l.timer)) else Steady(l, r)
  {
    hide Fresh, SameTimeout, Send, Beacon, Cancel, AdvanceTime, Hear, TakeRow, Collect, Reset, Shape, Retries, Due,
      BackOff;
    match i
    case Submit(message, entropy) => SendSteady(l, message, entropy);
    case Announce(payload) => CallsSteady(l, payload, 0, 0);
    case Abort(reason) => CallsSteady(l, [], reason, 0);
    case Tick(time) => AdvanceTimeTimer(l, time);
    case Receive(raw) => HearSteady(l, raw);
    case Transmit => CallsSteady(l, [], 0, 0);
    case Take(capacity) => CallsSteady(l, [], 0, capacity);
    case Restart => ResetSteady(l);
  }

  // ------------------------------------------------------------ every run

  // Expiries since the timeout was last as recompute_timeouts leaves it.
  function Expiries(l: Link, inputs: seq<Input>): nat
    requires Shape(l) && ValidInputs(inputs)
    decreases |inputs|
  {
    if inputs == [] then 0
    else
      var n := |inputs| - 1;
      var before, after := Run(l, inputs[..n]), Run(l, inputs);
      if Backs(before, inputs[n]) then Expiries(l, inputs[..n]) + 1
      else if SameTimeout(after.timer, before.timer) then Expiries(l, inputs[..n])
      else 0
  }

  /** In every run the k-th consecutive expiry leaves the timeout at min(2^k, 8) times its base, and the base leaves
      room for two and a half frame airtimes, up to the truncated division. */
  lemma {:induction false} BackoffInEveryRun(cfg: Config, window: nat, inputs: seq<Input>)
    requires ValidConfig(cfg, window) && ValidInputs(inputs)
    ensures var l := Run(Initial(cfg, window), inputs);
            l.cfg == cfg && TimerInv(l.timer, cfg.airtime, Expiries(Initial(cfg, window), inputs))
    decreases |inputs|
  {
    hide Step, Backs, Shape, Recompute, NoneSet, NoSegments, NoDuplicates, ZeroChallenge;
    var l := Initial(cfg, window);
    if inputs == [] {
      RecomputeInv(Timer(0, None, 0, 0, 0), cfg.airtime, window);
    } else {
      var n := |inputs| - 1;
      BackoffInEveryRun(cfg, window, inputs[..n]);
      var before, k := Run(l, inputs[..n]), Expiries(l, inputs[..n]);
      StepTimer(before, inputs[n]);
    }
  }
}
