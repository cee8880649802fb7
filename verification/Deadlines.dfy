/**
  An armed deadline lies in the future, so advancing the clock twice to one time does what advancing it once does.
 */
module Deadlines {
  import opened Wire
  import opened LinkSpec
  import opened Reachable
  import opened Invariant
  import opened Effects
  import opened Timers
  import Codec

  // Every timeout the link would arm is at least one millisecond.
  predicate Prompt(t: Timer) {
    1 <= t.base && 1 <= t.ceiling && 1 <= t.timeout
  }

  predicate Ahead(t: Timer) {
    t.deadline.Some? ==> t.now < t.deadline.value
  }

  // The clock stands still; the deadline stays, goes, or is armed afresh.
  predicate Rearmed(before: Timer, after: Timer) {
    && after.now == before.now
    && (after.deadline == before.deadline || after.deadline.None? || after.deadline == Some(after.now + after.timeout))
  }

  lemma ResumeRearms(l: Link, retransmission: bool)
    requires Shape(l)
    ensures Rearmed(l.timer, StartOrResume(l, retransmission).timer)
  {
    hide QueueFrom, Recompute;
    QueueFromFrame(l, l.tx.base, 0);
    RecomputeClock(l.timer, l.cfg.airtime, QueueFrom(l, l.tx.base, 0).1);
  }

  lemma AnsweredRearms(l: Link, reply: Frame)
    requires Shape(l)
    ensures Rearmed(l.timer, Answered(l, reply).timer)
  {
    hide StartOrResume, Recompute;
    var begun := QueueRow(l, Sent(reply))
      .(session := l.session.(helloAck := Some(reply), open := true),
        timer := Recompute(l.timer, l.cfg.airtime, l.window));
    RecomputeClock(l.timer, l.cfg.airtime, l.window);
    ResumeRearms(begun, false);
  }

  lemma HandleHelloRearms(l: Link, f: Frame)
    requires Shape(l) && f.kind == HELLO && Canonical(f)
    ensures Rearmed(l.timer, HandleHello(l, f).0.timer)
  {
    hide HelloAckFrame, Canonical, Answered, NoneSet, NoSegments, Negotiated, CapabilityProfile;
    AnsweredRearms(Named(l, f), HelloAckFrame(Named(l, f), f.message));
    AnsweredRearms(Named(Yield(l), f), HelloAckFrame(Named(Yield(l), f), f.message));
    var emptied := l.(rx := ClearRx(l.rx), dup := NoDuplicates());
    AnsweredRearms(Named(emptied, f), HelloAckFrame(Named(emptied, f), f.message));
  }

  lemma HandleHelloAckRearms(l: Link, f: Frame)
    requires Shape(l)
    ensures Rearmed(l.timer, HandleHelloAck(l, f).0.timer)
  {
    hide StartOrResume, Recompute;
    var window := Negotiated(l, f);
    RecomputeClock(l.timer, l.cfg.airtime, window);
    ResumeRearms(l.(session := l.session.(pending := false, open := true), window := window,
                    timer := Recompute(l.timer, l.cfg.airtime, window).(deadline := None)), false);
  }

  lemma HandleAckRearms(l: Link, f: Frame)
    requires Shape(l)
    ensures Rearmed(l.timer, HandleAck(l, f).0.timer)
  {
    hide StartOrResume, Recompute, MarkAcked;
    if l.tx.active {
      RecomputeClock(l.timer, l.cfg.airtime, l.window);
      ResumeRearms(l.(tx := MarkAcked(l.tx, f), timer := Recompute(l.timer, l.cfg.airtime, l.window)), false);
    }
  }

  lemma HandleFrameRearms(l: Link, f: Frame)
    requires Shape(l) && Canonical(f)
    ensures Rearmed(l.timer, HandleFrame(l, f).0.timer)
  {
    hide Canonical, HandleHello, HandleHelloAck, HandleData, HandleAck, DupLookup, DupStore, Shape, NoneSet, NoSegments;
    if f.kind == HELLO {
      HandleHelloRearms(l, f);
    } else if f.kind == HELLO_ACK {
      HandleHelloAckRearms(l, f);
    } else if f.kind == DATA {
      HandleDataSteady(l, f);
    } else if f.kind == ACK {
      HandleAckRearms(l, f);
    }
  }

  // Timers that will never arm a deadline in the past, now or later.
  predicate Punctual(l: Link)
    requires Shape(l)
  {
    Prompt(l.timer) && Ahead(l.timer)
  }

  /** Hearing a frame arms no deadline that has already passed. */
  lemma HearPunctual(l: Link, raw: Codec.Raw)
    requires Shape(l) && Punctual(l)
    ensures var r := Hear(l, raw).0; Punctual(r) && r.timer.now == l.timer.now
  {
    hide HandleFrame, Canonical, Codec.Decode;
    HearSteady(l, raw);
    var noted := l.(heard := Some(Heard(raw, l.timer.now)));
    if Codec.Decode(raw).Good? {
      HandleFrameRearms(noted, Codec.Decode(raw).frame);
    }
  }

  lemma AdvancePunctual(l: Link, time: nat)
    requires Shape(l) && Prompt(l.timer)
    ensures var r := AdvanceTime(l, time); Punctual(r) && time <= r.timer.now
  {
    hide StartOrResume, HelloFrame, CancelFrame, Canonical, NoneSet, NoSegments;
    var fired := l.(timer := l.timer.(now := if time > l.timer.now then time else l.timer.now, deadline := None));
    if Retries(l, time) {
      ResumeRearms(Expired(fired), true);
      ResumeTimer(Expired(fired));
    }
  }

  /** advance_time is idempotent: at a time already reached it changes nothing, however much was heard in between. */
  lemma AdvanceAgain(l: Link, time: nat)
    requires Shape(l) && Ahead(l.timer) && time <= l.timer.now
    ensures AdvanceTime(l, time) == l
  {
  }

  /** Every reachable link is prompt. */
  lemma PromptInEveryRun(cfg: Config, window: nat, inputs: seq<Input>)
    requires ValidConfig(cfg, window) && ValidInputs(inputs)
    ensures Prompt(Run(Initial(cfg, window), inputs).timer)
  {
    hide Run, Initial, Expiries, Doublings;
    BackoffInEveryRun(cfg, window, inputs);
    var t, k := Run(Initial(cfg, window), inputs).timer, Expiries(Initial(cfg, window), inputs);
    TimeoutPositive(t, cfg.airtime, k);
  }

  lemma TimeoutPositive(t: Timer, airtime: nat, k: nat)
    requires TimerInv(t, airtime, k)
    ensures Prompt(t)
  {
  }
}
