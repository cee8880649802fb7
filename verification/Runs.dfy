/**
  The steps concrete runs are put together from: emptying the ring, opening a session, sending on it.
 */
module Runs {
  import opened Bytes
  import opened Wire
  import opened LinkSpec
  import opened Reachable
  import opened Invariant
  import opened Effects
  import DupCache
  import Lossless
  import Timers

  // ------------------------------------------------------------ putting runs together

  lemma {:induction false} RunSplits(l: Link, a: seq<Input>, b: seq<Input>)
    requires Shape(l) && ValidInputs(a) && ValidInputs(b)
    ensures Run(l, a + b) == Run(Run(l, a), b)
    decreases |b|
  {
    hide Shape, Step;
    if b == [] {
      assert a + b == a;
    } else {
      assert (a + b)[..|a + b| - 1] == a + b[..|b| - 1];
      RunSplits(l, a, b[..|b| - 1]);
    }
  }

  lemma RunNothing(l: Link)
    requires Shape(l)
    ensures Run(l, []) == l
  {
  }

  lemma RunOne(l: Link, i: Input)
    requires Shape(l) && ValidInput(i)
    ensures Run(l, [i]) == Step(l, i).0
  {
    hide Shape, Step;
    assert [i][..0] == [];
  }

  // The modem takes n frames.
  function Drain(n: nat): (inputs: seq<Input>)
    ensures ValidInputs(inputs)
  {
    seq(n, _ => Transmit)
  }

  lemma {:induction false} DrainTakes(l: Link, n: nat)
    requires Inv(l) && n <= |l.out|
    ensures Run(l, Drain(n)) == l.(out := l.out[n..]) && Inv(l.(out := l.out[n..]))
    decreases n
  {
    hide TxInv, RxInv, SessionInv, RowsInv, Shape, Step;
    InvShape(l);
    if n > 0 {
      DrainTakes(l, n - 1);
      var before := l.(out := l.out[n - 1..]);
      assert Drain(n)[..n - 1] == Drain(n - 1);
      Lossless.TransmitStep(before);
      assert before.out[1..] == l.out[n..];
    }
  }

  // ------------------------------------------------------------ single steps

  lemma SubmitIsSend(l: Link, message: seq<byte>, entropy: Option<Entropy>)
    requires Shape(l) && (entropy.Some? ==> |entropy.value.challenge| == CHALLENGE_BYTES)
    ensures ValidInput(Submit(message, entropy))
    ensures Step(l, Submit(message, entropy)) == Send(l, message, entropy)
  {
    hide Shape, Send, Beacon, Cancel, AdvanceTime, Hear, TakeRow, Collect, Reset;
  }

  lemma InitialIdle(cfg: Config, window: nat)
    requires ValidConfig(cfg, window)
    ensures var l := Initial(cfg, window);
      l.cfg == cfg && !l.session.open && !l.session.pending && !l.tx.active && l.out == [] && l.heard.None?
  {
    hide Recompute;
  }

  // ------------------------------------------------------------ opening a session

  // What an opening leaves of the other half of the link.
  predicate SameReceiver(l: Link, r: Link) {
    r.rx == l.rx && r.dup == l.dup && r.delivery == l.delivery && r.cfg == l.cfg && r.timer.now == l.timer.now
  }

  /** kal_send at an initiator with no session loads the message and proposes one. */
  lemma Proposes(l: Link, message: seq<byte>, entropy: Entropy)
    requires Inv(l) && l.cfg.role.Initiator? && !l.session.open && !l.session.pending && !l.tx.active && l.out == []
    requires |message| <= l.cfg.maxMessage && |entropy.challenge| == CHALLENGE_BYTES
    ensures |message| <= MAX_MESSAGE_BYTES
    ensures var r := Send(l, message, Some(entropy)).0;
      && Inv(r) && r.out == [Sent(HelloFrame(r))] && Canonical(HelloFrame(r))
      && r.session.pending && r.session.nextMessage == l.session.nextMessage
      && r.session.id == (if entropy.session == 0 then 1 else entropy.session)
      && r.tx == Load(l, message).tx && r.window == l.window && r.heard == l.heard && SameReceiver(l, r)
  {
    hide TxInv, RxInv, SessionInv, RowsInv, Load, Recompute, Canonical;
    InvShape(l);
    SendInv(l, message, Some(entropy));
    Timers.LoadKeeps(l, message);
    var id: u32 := if entropy.session == 0 then 1 else entropy.session;
    var named := Load(l, message).(session := l.session.(id := id, challenge := entropy.challenge));
    HelloFramesCanonical(named, 0);
    Timers.RecomputeClock(l.timer, l.cfg.airtime, 1);
    assert [] + [Sent(HelloFrame(named))] == [Sent(HelloFrame(named))];
  }

  /** A responder with no session and nothing to send answers a HELLO and opens its session. */
  lemma Accepts(l: Link, f: Frame)
    requires Inv(l) && l.cfg.role.Responder? && !l.session.open && !l.tx.active && l.out == []
    requires f.kind == HELLO && Canonical(f) && CapabilityProfile(f.value) == l.cfg.profile
    ensures var r := HandleHello(l, f).0;
      && Inv(r) && r.out == [Sent(HelloAckFrame(r, f.message))] && Canonical(HelloAckFrame(r, f.message))
      && r.session.open && r.session.id == f.session && r.session.challenge == f.payload
      && r.session.nextMessage == l.session.nextMessage && !r.tx.active
      && r.window == Negotiated(l, f) && r.heard == l.heard && SameReceiver(l, r)
  {
    hide TxInv, RxInv, SessionInv, RowsInv, Recompute, Canonical, Negotiated, CapabilityProfile;
    HandleHelloInv(l, f);
    var named := Named(l, f);
    HelloFramesCanonical(named, f.message);
    Timers.RecomputeClock(l.timer, l.cfg.airtime, named.window);
    assert [] + [Sent(HelloAckFrame(named, f.message))] == [Sent(HelloAckFrame(named, f.message))];
  }

  // What the two sides make of each other's capability.
  lemma HelloOffer(x: Link, y: Link)
    requires Shape(x) && Shape(y)
    ensures Negotiated(y, HelloFrame(x)) == (if x.window < y.window then x.window else y.window)
    ensures CapabilityProfile(HelloFrame(x).value) == x.cfg.profile
  {
    HelloFramesCanonical(x, 0);
  }

  lemma HelloAckOffer(x: Link, y: Link)
    requires Shape(x) && Shape(y) && y.window <= x.window
    ensures Negotiated(x, HelloAckFrame(y, 0)) == y.window
    ensures CapabilityProfile(HelloAckFrame(y, 0).value) == y.cfg.profile
  {
    HelloFramesCanonical(y, 0);
  }

  // The transfer waiting for a session has queued nothing.
  predicate Waiting(l: Link, message: seq<byte>)
    requires Shape(l)
  {
    && |message| <= MAX_MESSAGE_BYTES && l.tx.active && l.tx.base == 0 && Lossless.Clean(l.tx, 0)
    && SegmentCount(|message|) == Some(l.tx.total)
    && forall i | 0 <= i < l.tx.total :: l.tx.segments[i] == Chunk(Transfer(message), i)
  }

  lemma LoadWaits(l: Link, message: seq<byte>)
    requires Shape(l) && |message| <= MAX_MESSAGE_BYTES
    ensures Waiting(Load(l, message), message) && Load(l, message).tx.message == l.session.nextMessage
  {
    hide Chunk, Transfer, SegmentCount;
  }

  /** The initiator takes the answer for its proposal and puts its first window on air. */
  lemma Confirms(l: Link, f: Frame, message: seq<byte>)
    requires Inv(l) && l.session.pending && l.out == [] && Waiting(l, message)
    requires f.kind == HELLO_ACK && Canonical(f) && CapabilityProfile(f.value) == l.cfg.profile
    requires f.session == l.session.id && f.payload == l.session.challenge
    ensures var r := HandleHelloAck(l, f).0;
      && Lossless.Sending(r, message, 0) && r.session.open && r.session.id == l.session.id
        && r.tx.message == l.tx.message
      && r.session.nextMessage == l.session.nextMessage && r.window == Negotiated(l, f) && r.heard == l.heard
        && SameReceiver(l, r)
  {
    hide TxInv, RxInv, SessionInv, RowsInv, Recompute, Canonical, CapabilityWindow, CapabilityProfile, StartOrResume,
      Lossless.Clean, Lossless.Sending, Chunk, Transfer, SegmentCount;
    var window := Negotiated(l, f);
    var begun := l.(session := l.session.(pending := false, open := true), window := window,
                     timer := Recompute(l.timer, l.cfg.airtime, window).(deadline := None));
    OpenedInv(l, window);
    Timers.RecomputeClock(l.timer, l.cfg.airtime, window);
    Lossless.ResumeSending(begun, message);
    ResumeFrame(begun, false);
    DupCache.ResumeClock(begun, false);
  }

  lemma OpenedInv(l: Link, window: nat)
    requires Inv(l) && l.session.pending && MIN_WINDOW <= window <= MAX_WINDOW
    ensures Inv(l.(session := l.session.(pending := false, open := true), window := window,
                   timer := Recompute(l.timer, l.cfg.airtime, window).(deadline := None)))
  {
    hide TxInv, RxInv, RowsInv, Recompute;
  }
}
