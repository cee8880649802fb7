/**
  What a lost frame costs. A proposal, its answer, the acknowledgement of a window or the receipt of a message is lost;
  the deadline passes, what is sent again is answered again, and the session opens, or the transfer goes on.
 */
module Recovery {
  import opened Bytes
  import opened Wire
  import opened LinkSpec
  import opened Reachable
  import opened Invariant
  import opened Effects
  import opened DupCache
  import opened Lossless
  import Answers
  import Codec
  import Exhaustion
  import Limits
  import Receiving
  import Runs

  // A frame the repeat guard lets through is handled.
  lemma HeardIsHandled(l: Link, f: Frame)
    requires Shape(l) && Canonical(f) && HeardFrame(l, Codec.Encode(f)) == Some(f)
    ensures Step(l, Receive(Codec.Encode(f))) == HandleFrame(Noted(l, Codec.Encode(f)), f)
  {
    hide Shape, Step, HandleFrame, Canonical, Codec.Encode, Codec.Decode;
    Receiving.StepIsHear(l, Receive(Codec.Encode(f)));
  }

  // ------------------------------------------------------------ the acknowledgement of a window

  // The window that starts at `from` has left, its acknowledgement does not come, and the deadline passes with retries
  // left.
  predicate Stalled(x: Link, t: Task, from: nat, time: nat)
    requires Shape(x)
  {
    hide Poised;
    x.out == [] && Retries(x, time) && t.total <= MAX_SEGMENTS && Poised(x, t, from)
  }

  // The window is in the ring.
  predicate Queued(r: Link, t: Task, from: nat)
    requires Shape(r)
  {
    hide DataFrame, Frames, Poised;
    && from < End(t, from) <= r.tx.total == t.total <= MAX_SEGMENTS && r.out == Frames(r, from, End(t, from))
    && r.window == t.window && Poised(r, t, from)
  }

  // The deadline passes: the window goes into the ring again.
  lemma WindowAgain(x: Link, t: Task, from: nat, time: nat)
    requires Shape(x) && Stalled(x, t, from, time)
    ensures var r := Step(x, Tick(time)).0;
      && Queued(r, t, from) && r.timer.deadline.Some? && r.tx.retries == x.tx.retries + 1 && r.session == x.session
  {
    hide TxInv, RxInv, RowsInv, SessionInv, StartOrResume, Step, Older, Frames, Chunk, Transfer, SegmentCount, BackOff;
    Exhaustion.StepTick(x, time);
    var fired := x.(timer := x.timer.(now := if time > x.timer.now then time else x.timer.now, deadline := None));
    RetimedInv(x, fired.timer);
    ExpiredInv(fired);
    ResumeQueues(Expired(fired), t.message, true);
    var r := Step(x, Tick(time)).0;
    assert [] + Frames(r, from, End(t, from)) == Frames(r, from, End(t, from));
  }

  // The receiver stored s segments and acknowledged them.
  predicate Holding(y: Link, t: Task, s: nat)
    requires Shape(y)
  {
    hide Ready, Reply;
    0 < s < t.total <= MAX_SEGMENTS && y.rx.ack == Some(Reply(t, s)) && Ready(y, t.message, t.key, t.total, s)
  }

  // A segment the receiver has is acknowledged again, and changes nothing there.
  lemma SegmentAnsweredAgain(y: Link, f: Frame, t: Task, i: nat, s: nat)
    requires Shape(y) && y.out == [] && i < s && Holding(y, t, s)
    requires Segment(f, t.message, t.key, t.total, i) && HeardFrame(y, Codec.Encode(f)) == Some(f)
    ensures var r := Step(y, Receive(Codec.Encode(f))).0; r.out == [Sent(Reply(t, s))] && r.rx == y.rx
  {
    hide TxInv, RxInv, RowsInv, Step, HandleFrame, HandleHello, HandleHelloAck, HandleData, HandleAck, HandleBeacon,
      HeardFrame, Canonical, Codec.Encode, Chunk, Transfer, SegmentCount, DupLookup, Missing, Reply;
    HeardIsHandled(y, f);
    var noted := Noted(y, Codec.Encode(f));
    Handled(noted, f);
    NotedInv(y, noted.heard);
    LookupMisses(y.dup, y.timer.now, f.session, f.message);
    var a := Answers.RepeatAcknowledged(noted, f);
    assert [] + [Sent(a)] == [Sent(a)];
  }

  // The next window is behind what was in the ring, and the retries are taken back.
  predicate GoesOn(x: Link, r: Link, t: Task, s: nat)
    requires Shape(x) && Shape(r)
  {
    hide DataFrame, Frames, OnWindow;
    && s < End(t, s) <= r.tx.total == t.total && r.window == t.window && r.tx.retries == 0
    && r.out == x.out + Frames(r, s, End(t, s)) && OnWindow(r, t.message, s)
  }

  // The acknowledgement of the window, with rows of the repetition still in the ring.
  lemma NextWindowBehind(x: Link, t: Task, from: nat, s: nat)
    requires Shape(x) && |x.out| < t.window && from < s == End(t, from) < t.total <= MAX_SEGMENTS
    requires Poised(x, t, from)
    ensures Canonical(Reply(t, s)) && GoesOn(x, Step(x, Receive(Codec.Encode(Reply(t, s)))).0, t, s)
  {
    hide Inv, Older, Frames, OnWindow, Step, HandleFrame, HandleHello, HandleHelloAck, HandleData, HandleBeacon,
      StartOrResume, Canonical, Codec.Encode, Recompute, MarkAcked, Chunk, Transfer, SegmentCount, Clean;
    OnWindowInv(x, t.message, from);
    ReplyCanonical(t, s);
    var f := Reply(t, s);
    HearsNext(x, f, t.key, from + 1);
    var noted := Noted(x, Codec.Encode(f));
    InvShape(noted);
    OnWindowKept(x, noted, t.message, from);
    Handled(noted, f);
    MarkedResumable(noted, f, t.message, from);
    ResumeQueues(noted.(tx := MarkAcked(noted.tx, f), timer := Recompute(noted.timer, noted.cfg.airtime, noted.window)),
                 t.message, false);
  }

  lemma MarkedResumable(x: Link, f: Frame, message: seq<byte>, from: nat)
    requires Shape(x) && from + x.window < x.tx.total && |x.out| < x.window
    requires f == Frame(ACK, x.session.id, x.tx.message, from + x.window, 0, 0, [])
    requires OnWindow(x, message, from)
    ensures var m := x.(tx := MarkAcked(x.tx, f), timer := Recompute(x.timer, x.cfg.airtime, x.window));
      Resumable(m, message) && m.tx.base == f.sequence && m.tx.retries == 0 && m.tx.total == x.tx.total
  {
    hide TxInv, RxInv, RowsInv, SessionInv, Chunk, Transfer, SegmentCount, Recompute, Clean, AckedAfter, InflightAfter,
      FirstClear;
    PrefixMarked(x.tx, f, from);
    MarkAckedInv(x.tx, f);
    MarkedLinkInv(x, f);
  }

  /** The acknowledgement of a window is lost. The sender's deadline passes and its window goes into the ring again; the
      first frame of it is answered with the acknowledgement that was lost; and on hearing that the sender queues the
      next window, its retries taken back. */
  lemma AcknowledgementLost(x: Link, y: Link, t: Task, from: nat, s: nat, time: nat, wait: nat)
    returns (again: Link, f: Frame, answered: Link, sent: Link, r: Link)
    requires Shape(x) && Shape(y) && from < s == End(t, from) < t.total && Stalled(x, t, from, time)
    requires !Due(y, wait) && Took(y, t, from, s) && (y.heard.Some? ==> y.heard.value.at + 2 * y.cfg.airtime <= wait)
    ensures again == Step(x, Tick(time)).0 && Queued(again, t, from) && again.out[0] == Sent(f) && Canonical(f)
    ensures answered == Step(Step(Step(y, Transmit).0, Tick(wait)).0, Receive(Codec.Encode(f))).0
    ensures answered.out == [Sent(Reply(t, s))] && answered.rx == y.rx && Canonical(Reply(t, s))
    ensures sent == Step(again, Transmit).0 && r == Step(sent, Receive(Codec.Encode(Reply(t, s)))).0
    ensures Shape(sent) && Shape(r) && GoesOn(sent, r, t, s)
  {
    hide Inv, Older, Frames, OnWindow, Step, Due, Ready, Poised, Segment, DataFrame, Canonical, Codec.Encode, Reply,
      HeardFrame, GoesOn, Stalled;
    WindowAgain(x, t, from, time);
    again := Step(x, Tick(time)).0;
    f := DataFrame(again, from);
    PoisedInv(again, t, from);
    FramesParts(again, from, s);
    TransmitStep(again);
    sent := Step(again, Transmit).0;
    PoisedKept(again, sent, t, from);
    PoisedSegment(again, t, from, from);
    var still := StillReady(y, t, from, s, wait);
    Audible(still, f);
    SegmentAnsweredAgain(still, f, t, from, s);
    answered := Step(still, Receive(Codec.Encode(f))).0;
    NextWindowBehind(sent, t, from, s);
    r := Step(sent, Receive(Codec.Encode(Reply(t, s)))).0;
  }

  lemma FramesParts(x: Link, from: nat, end: nat)
    requires Shape(x) && from < end <= x.tx.total
    ensures Frames(x, from, end) != [] && Frames(x, from, end)[0] == Sent(DataFrame(x, from))
    ensures |Frames(x, from, end)[1..]| == end - from - 1
  {
    hide DataFrame, Shape;
  }

  // The receiver of the window, its acknowledgement gone and some time later.
  lemma StillReady(y: Link, t: Task, from: nat, s: nat, wait: nat) returns (r: Link)
    requires Shape(y) && from < s == End(t, from) < t.total && !Due(y, wait) && Took(y, t, from, s)
    ensures r == Step(Step(y, Transmit).0, Tick(wait)).0 && Shape(r) && Holding(r, t, s)
    ensures r.out == [] && r.rx == y.rx && r.heard == y.heard && r.cfg == y.cfg && wait <= r.timer.now
  {
    hide Inv, Older, Step, Ready, Due, Reply, Shape;
    ReadyInv(y, t, s);
    TransmitStep(y);
    var drained := Step(y, Transmit).0;
    assert y.out[1..] == [];
    SameDue(y, drained, wait);
    WaitStep(drained, wait);
    r := Step(drained, Tick(wait)).0;
    Ticked(drained, wait);
    ReadyKept(y, r, t, s);
  }

  lemma SameDue(l: Link, m: Link, time: nat)
    requires m.timer == l.timer
    ensures Due(m, time) <==> Due(l, time)
  {
  }

  lemma Ticked(l: Link, time: nat)
    requires Shape(l) && !Due(l, time)
    ensures Step(l, Tick(time)).0 == l.(timer := l.timer.(now := if time > l.timer.now then time else l.timer.now))
  {
    hide Shape, Send, Beacon, Cancel, Hear, TakeRow, Collect, Reset;
  }

  // Two airtimes after the last frame was heard, any frame gets past the repeat guard.
  lemma Audible(l: Link, f: Frame)
    requires Canonical(f) && (l.heard.Some? ==> l.heard.value.at + 2 * l.cfg.airtime <= l.timer.now)
    ensures HeardFrame(l, Codec.Encode(f)) == Some(f)
  {
    hide Canonical, Codec.Encode, Codec.Decode;
    Codec.DecodeEncode(f);
  }

  // ------------------------------------------------------------ the receipt of a message

  /** The receipt of a message is lost. The sender's last window goes into the ring again, its first frame is answered
      with the receipt the receiver remembers, and on hearing that the transfer ends in KAL_OK. */
  lemma ReceiptLost(x: Link, y: Link, t: Task, from: nat, time: nat)
    returns (again: Link, f: Frame, answered: Link, r: Link)
    requires Shape(x) && from < End(t, from) == t.total && Stalled(x, t, from, time)
    requires Inv(y) && y.out == [] && y.session.open && y.session.id == t.key.session && t.total <= MAX_SEGMENTS
    requires DupLookup(y.dup, y.timer.now, t.key.session, t.key.message).1 == Some(Sent(Reply(t, t.total)))
    requires y.heard.Some? ==> y.heard.value.at + 2 * y.cfg.airtime <= y.timer.now
    ensures again == Step(x, Tick(time)).0 && Queued(again, t, from) && again.out[0] == Sent(f) && Canonical(f)
    ensures answered == Step(y, Receive(Codec.Encode(f))).0 && answered.out == [Sent(Reply(t, t.total))]
    ensures answered.delivery == y.delivery && Canonical(Reply(t, t.total))
    ensures r == Step(Step(again, Transmit).0, Receive(Codec.Encode(Reply(t, t.total)))).0
    ensures !r.tx.active && r.tx.status == Success && r.timer.deadline.None?
    ensures r.session.nextMessage == (x.session.nextMessage + 2) % 0x1_0000
  {
    hide TxInv, RxInv, RowsInv, SessionInv, Older, Frames, OnWindow, Step, HandleFrame, HandleHello, HandleHelloAck,
      HandleData, HandleAck, HandleBeacon, DataFrame, Canonical, Codec.Encode, HeardFrame, Stalled, DupLookup, Chunk,
      Transfer, Segment, Poised;
    WindowAgain(x, t, from, time);
    again := Step(x, Tick(time)).0;
    f := DataFrame(again, from);
    PoisedInv(again, t, from);
    FramesParts(again, from, t.total);
    TransmitStep(again);
    var sent := Step(again, Transmit).0;
    PoisedKept(again, sent, t, from);
    PoisedSegment(again, t, from, from);
    SegmentNames(f, t, from);
    Audible(y, f);
    HeardIsHandled(y, f);
    Handled(Noted(y, Codec.Encode(f)), f);
    NotedInv(y, Noted(y, Codec.Encode(f)).heard);
    Limits.ReceiptReplayed(Noted(y, Codec.Encode(f)), f, Reply(t, t.total));
    answered := Step(y, Receive(Codec.Encode(f))).0;
    assert [] + [Sent(Reply(t, t.total))] == [Sent(Reply(t, t.total))];
    ReceiptHeard(sent, t, from);
    r := Step(sent, Receive(Codec.Encode(Reply(t, t.total)))).0;
  }

  lemma SegmentNames(f: Frame, t: Task, i: nat)
    requires Segment(f, t.message, t.key, t.total, i)
    ensures f.kind == DATA && f.session == t.key.session && f.message == t.key.message
  {
    hide Canonical, Chunk, Transfer;
  }

  lemma ReceiptHeard(x: Link, t: Task, from: nat)
    requires Shape(x) && t.total <= MAX_SEGMENTS && Poised(x, t, from)
    ensures Canonical(Reply(t, t.total))
    ensures var r := Step(x, Receive(Codec.Encode(Reply(t, t.total)))).0;
      && !r.tx.active && r.tx.status == Success && r.timer.deadline.None?
      && r.session.nextMessage == (x.session.nextMessage + 2) % 0x1_0000
  {
    hide TxInv, RxInv, RowsInv, SessionInv, Older, Step, HandleFrame, HandleHello, HandleHelloAck, HandleData,
      HandleAck, HandleBeacon, Canonical, Codec.Encode, OnWindow;
    OnWindowInv(x, t.message, from);
    ReplyCanonical(t, t.total);
    var f := Reply(t, t.total);
    HearsNext(x, f, t.key, from + 1);
    Handled(Noted(x, Codec.Encode(f)), f);
    Answers.ReceiptAnswers(Noted(x, Codec.Encode(f)), f);
  }

  // ------------------------------------------------------------ a proposal and its answer

  // The link proposes a session for the (k + 1)st time.
  predicate Asking(l: Link, k: nat)
    requires Shape(l)
  {
    hide HelloFrame;
    Inv(l) && Exhaustion.Opening(l, k) && l.out == [Sent(HelloFrame(l))] && Canonical(HelloFrame(l))
  }

  // The same proposal, later.
  predicate SameProposal(l: Link, r: Link) {
    && r.session == l.session.(helloRetries := r.session.helloRetries) && r.tx == l.tx && r.window == l.window
    && r.cfg == l.cfg && r.heard == l.heard && l.timer.now <= r.timer.now
  }

  // A proposal is lost, and the deadline passes: it is made again.
  lemma AsksAgain(l: Link, k: nat, time: nat)
    requires Shape(l) && Asking(l, k) && k < l.cfg.maxRetries && Due(l, time)
    ensures var r := Step(Step(l, Transmit).0, Tick(time)).0;
            Asking(r, k + 1) && SameProposal(l, r) && HelloFrame(r) == HelloFrame(l)
  {
    hide TxInv, RxInv, RowsInv, SessionInv, Step, HelloFrame, Canonical;
    TransmitStep(l);
    var sent := Step(l, Transmit).0;
    assert l.out[1..] == [];
    Exhaustion.StepTick(sent, time);
    StepInv(sent, Tick(time));
    var fired := sent.(timer := sent.timer.(now := if time > sent.timer.now then time else sent.timer.now,
                                            deadline := None));
    var r := Step(sent, Tick(time)).0;
    HelloSame(l, r);
    HelloSame(l, fired);
    assert [] + [Sent(HelloFrame(l))] == [Sent(HelloFrame(l))];
  }

  lemma HelloSame(l: Link, r: Link)
    requires Shape(l) && Shape(r) && r.session == l.session.(helloRetries := r.session.helloRetries)
    requires r.window == l.window && r.cfg == l.cfg
    ensures HelloFrame(r) == HelloFrame(l)
  {
  }

  // Each proposal leaves the ring unheard and its deadline passes.
  function Unheard(times: seq<nat>): (inputs: seq<Input>)
    ensures ValidInputs(inputs)
  {
    if times == [] then []
    else Unheard(times[..|times| - 1]) + [Transmit] + [Tick(times[|times| - 1])]
  }

  // The times are past the deadlines armed then.
  predicate Passing(l: Link, times: seq<nat>)
    requires Shape(l)
    decreases |times|
  {
    times == [] || (Passing(l, times[..|times| - 1]) && Due(Run(l, Unheard(times[..|times| - 1])), times[|times| - 1]))
  }

  lemma {:induction false} ProposalsLost(l: Link, times: seq<nat>)
    requires Shape(l) && Asking(l, 0) && |times| <= l.cfg.maxRetries && Passing(l, times)
    ensures var r := Run(l, Unheard(times)); Asking(r, |times|) && SameProposal(l, r)
    decreases |times|
  {
    hide Shape, Inv, Step, Run, Asking, Due, Unheard;
    if times == [] {
      assert Unheard(times) == [] by { NoneUnheard(); }
      Runs.RunNothing(l);
    } else {
      var n := |times| - 1;
      ProposalsLost(l, times[..n]);
      var before := Run(l, Unheard(times[..n]));
      AsksAgain(before, n, times[n]);
      UnheardTurn(times);
      Runs.RunSplits(l, Unheard(times[..n]), [Transmit]);
      Runs.RunOne(before, Transmit);
      Runs.RunSplits(l, Unheard(times[..n]) + [Transmit], [Tick(times[n])]);
      Runs.RunOne(Step(before, Transmit).0, Tick(times[n]));
    }
  }

  lemma NoneUnheard()
    ensures Unheard([]) == []
  {
  }

  lemma UnheardTurn(times: seq<nat>)
    requires times != []
    ensures Unheard(times) == Unheard(times[..|times| - 1]) + [Transmit] + [Tick(times[|times| - 1])]
  {
  }

  // y took the proposal of x over, and its answer is in its ring.
  predicate Answering(x: Link, y: Link)
    requires Shape(x) && Shape(y)
  {
    hide HelloAckFrame;
    && Inv(y) && y.session.open && y.session.id == x.session.id && y.session.challenge == x.session.challenge
    && y.cfg.profile == x.cfg.profile && y.window <= x.window
    && y.session.helloAck == Some(HelloAckFrame(y, x.session.nextMessage))
    && y.out == [Sent(HelloAckFrame(y, x.session.nextMessage))] && Canonical(HelloAckFrame(y, x.session.nextMessage))
  }

  // Two airtimes have passed since the last frame was heard.
  predicate Attentive(l: Link) {
    l.heard.Some? ==> l.heard.value.at + 2 * l.cfg.airtime <= l.timer.now
  }

  // An idle responder hears the proposal.
  lemma ProposalHeard(x: Link, k: nat, y: Link)
    requires Shape(x) && Asking(x, k) && Inv(y) && Attentive(y)
    requires y.cfg.role.Responder? && !y.session.open && !y.tx.active && y.out == [] && y.cfg.profile == x.cfg.profile
    ensures Canonical(HelloFrame(x))
    ensures var r := Step(y, Receive(Codec.Encode(HelloFrame(x)))).0;
      Answering(x, r) && r.window == (if x.window < y.window then x.window else y.window)
  {
    hide TxInv, RxInv, RowsInv, SessionInv, Step, HandleFrame, HandleHello, HandleHelloAck, HandleData, HandleAck,
      HandleBeacon, Canonical, Codec.Encode, HeardFrame, Negotiated, CapabilityProfile, HelloAckFrame;
    var f := HelloFrame(x);
    Runs.HelloOffer(x, y);
    Audible(y, f);
    HeardIsHandled(y, f);
    var noted := Noted(y, Codec.Encode(f));
    NotedInv(y, noted.heard);
    Handled(noted, f);
    Runs.HelloOffer(x, noted);
    Runs.Accepts(noted, f);
    AcceptRemembers(noted, f);
  }

  lemma AcceptRemembers(l: Link, f: Frame)
    requires Inv(l) && l.cfg.role.Responder? && !l.session.open && |l.out| < OUT_QUEUE_FRAMES
    requires f.kind == HELLO && Canonical(f) && CapabilityProfile(f.value) == l.cfg.profile
    ensures var r := HandleHello(l, f).0; r.session.helloAck == Some(HelloAckFrame(r, f.message))
  {
    hide TxInv, RxInv, RowsInv, Canonical, HandleHello, HelloAckFrame, CapabilityProfile, Negotiated;
    Answers.HelloAnswered(l, f);
  }

  // The answer is heard: both are open, on one session and one window, and the message is on its way.
  lemma AnswerHeard(x: Link, k: nat, y: Link, message: seq<byte>)
    requires Shape(x) && Asking(x, k) && Shape(y) && Answering(x, y) && Attentive(x) && Runs.Waiting(x, message)
    ensures var sent := Step(x, Transmit).0;
            var r := Step(sent, Receive(Codec.Encode(HelloAckFrame(y, x.session.nextMessage)))).0;
      && r.session.open && r.session.id == y.session.id && r.window == y.window && Sending(r, message, 0)
  {
    hide TxInv, RxInv, RowsInv, SessionInv, Step, HandleFrame, HandleHello, HandleHelloAck, HandleData, HandleAck,
      HandleBeacon, Canonical, Codec.Encode, HeardFrame, Negotiated, CapabilityProfile, Clean, Sending, Chunk, Transfer,
      SegmentCount;
    TransmitStep(x);
    var sent := Step(x, Transmit).0;
    assert x.out[1..] == [];
    var f := HelloAckFrame(y, x.session.nextMessage);
    Audible(sent, f);
    HeardIsHandled(sent, f);
    var noted := Noted(sent, Codec.Encode(f));
    NotedInv(sent, noted.heard);
    Handled(noted, f);
    AckOffer(noted, y, x.session.nextMessage);
    Runs.Confirms(noted, f, message);
  }

  lemma AckOffer(x: Link, y: Link, message: u16)
    requires Shape(x) && Shape(y) && y.window <= x.window
    ensures Negotiated(x, HelloAckFrame(y, message)) == y.window
    ensures CapabilityProfile(HelloAckFrame(y, message).value) == y.cfg.profile
  {
    HelloFramesCanonical(y, message);
  }

  // What kal_send at an idle initiator starts.
  lemma SendAsks(x: Link, message: seq<byte>, e: Entropy)
    requires Inv(x) && x.cfg.role.Initiator? && !x.session.open && !x.session.pending && !x.tx.active && x.out == []
    requires |message| <= x.cfg.maxMessage && |e.challenge| == CHALLENGE_BYTES
    ensures var r := Send(x, message, Some(e)).0;
      && Asking(r, 0) && Runs.Waiting(r, message) && r.window == x.window && r.cfg == x.cfg && r.heard == x.heard
      && r.timer.now == x.timer.now && r.session.id == (if e.session == 0 then 1 else e.session)
  {
    hide TxInv, RxInv, RowsInv, SessionInv, Send, Load, Canonical, HelloFrame, Clean, Chunk, Transfer, SegmentCount;
    Runs.Proposes(x, message, e);
    Answers.SendProposes(x, message, e);
    Runs.LoadWaits(x, message);
  }

  /** A responder that was given a message before any session opened sends it as soon as it has answered an opening: its
      first window is behind the answer. */
  lemma WaitingBegins(l: Link, f: Frame, message: seq<byte>)
    requires Inv(l) && l.cfg.role.Responder? && !l.session.open && !l.tx.started
    requires Runs.Waiting(l, message) && |l.out| + 1 + MAX_WINDOW <= OUT_QUEUE_FRAMES
    requires f.kind == HELLO && Canonical(f) && CapabilityProfile(f.value) == l.cfg.profile
    ensures var r := HandleHello(l, f).0;
      && OnWindow(r, message, 0) && r.tx.started && r.timer.deadline.Some?
      && r.out == l.out + [Sent(HelloAckFrame(r, f.message))] + WindowRows(r, 0)
  {
    hide TxInv, RxInv, RowsInv, Recompute, Canonical, Negotiated, CapabilityProfile, StartOrResume, Frames, Chunk,
      Transfer, SegmentCount, Clean;
    var named := Named(Uncached(l), f);
    AdoptUncached(l, f);
    NamedInv(l, f);
    WelcomedInv(named, f.message);
    var begun := Welcomed(named, HelloAckFrame(named, f.message));
    ResumeQueues(begun, message, false);
    HelloFramesCanonical(named, f.message);
    Answers.NegotiatedInRange(l, f);
  }

  /** An opening of which the first k proposals are lost, for any k up to max_retries, opens when the next proposal and
      its answer get through: on the drawn id, at the smaller of the two windows, with the first window of the message
      in the initiator's ring. */
  lemma OpensAtLast(x: Link, message: seq<byte>, e: Entropy, times: seq<nat>, y: Link)
    returns (asking: Link, answering: Link, r: Link)
    requires Inv(x) && x.cfg.role.Initiator? && !x.session.open && !x.session.pending && !x.tx.active && x.out == []
    requires |message| <= x.cfg.maxMessage && |e.challenge| == CHALLENGE_BYTES && Attentive(x)
    requires |times| <= x.cfg.maxRetries && Passing(Send(x, message, Some(e)).0, times)
    requires Inv(y) && y.cfg.role.Responder? && !y.session.open && !y.tx.active && y.out == [] && Attentive(y)
    requires y.cfg.profile == x.cfg.profile
    ensures asking == Run(Send(x, message, Some(e)).0, Unheard(times)) && Asking(asking, |times|)
    ensures answering == Step(y, Receive(Codec.Encode(HelloFrame(asking)))).0 && Answering(asking, answering)
    ensures var f := HelloAckFrame(answering, asking.session.nextMessage);
            Canonical(f) && r == Step(Step(asking, Transmit).0, Receive(Codec.Encode(f))).0
    ensures r.session.open && r.session.id == answering.session.id == (if e.session == 0 then 1 else e.session)
    ensures r.window == answering.window == (if x.window < y.window then x.window else y.window)
    ensures Shape(r) && Sending(r, message, 0)
  {
    hide Inv, Send, Step, Run, Passing, Unheard, Asking, Answering, HelloFrame, HelloAckFrame, Canonical, Codec.Encode,
      Sending, Runs.Waiting;
    InvShape(x);
    InvShape(y);
    SendAsks(x, message, e);
    var first := Send(x, message, Some(e)).0;
    ProposalsLost(first, times);
    asking := Run(first, Unheard(times));
    WaitingKept(first, asking, message);
    AskingHello(asking, |times|);
    ProposalHeard(asking, |times|, y);
    answering := Step(y, Receive(Codec.Encode(HelloFrame(asking)))).0;
    AnsweringFacts(asking, answering);
    AnswerHeard(asking, |times|, answering, message);
    r := Step(Step(asking, Transmit).0, Receive(Codec.Encode(HelloAckFrame(answering, asking.session.nextMessage)))).0;
  }

  lemma AnsweringFacts(x: Link, y: Link)
    requires Shape(x) && Shape(y) && Answering(x, y)
    ensures y.session.id == x.session.id && Canonical(HelloAckFrame(y, x.session.nextMessage))
  {
    hide Inv, HelloAckFrame, Canonical;
  }

  lemma WaitingKept(l: Link, r: Link, message: seq<byte>)
    requires Shape(l) && Shape(r) && r.tx == l.tx && Runs.Waiting(l, message)
    ensures Runs.Waiting(r, message)
  {
    hide Shape, Chunk, Transfer, SegmentCount;
  }

  /** An answer is lost. The proposal is made again, the responder answers it as it did before, and the session opens.
      */
  lemma AnswerLost(x: Link, k: nat, message: seq<byte>, time: nat, y: Link, wait: nat)
    returns (asking: Link, still: Link, answering: Link, r: Link)
    requires Shape(x) && Asking(x, k) && k < x.cfg.maxRetries && Due(x, time) && Attentive(x)
    requires Runs.Waiting(x, message) && Shape(y) && Answering(x, y) && !Due(y, wait)
    requires y.heard.Some? ==> y.heard.value.at + 2 * y.cfg.airtime <= wait
    ensures asking == Step(Step(x, Transmit).0, Tick(time)).0 && Asking(asking, k + 1)
    ensures still == Step(Step(y, Transmit).0, Tick(wait)).0 && still.out == []
    ensures answering == Step(still, Receive(Codec.Encode(HelloFrame(asking)))).0 && Answering(asking, answering)
    ensures answering.out == y.out && answering.session == y.session
    ensures var f := HelloAckFrame(answering, asking.session.nextMessage);
            Canonical(f) && r == Step(Step(asking, Transmit).0, Receive(Codec.Encode(f))).0
    ensures r.session.open && r.session.id == y.session.id && r.window == y.window && Shape(r) && Sending(r, message, 0)
  {
    hide TxInv, RxInv, RowsInv, SessionInv, Step, Asking, HelloFrame, Canonical, Codec.Encode, Sending, Runs.Waiting,
      Due, HandleFrame, HandleHello, HandleHelloAck, HandleData, HandleAck, HandleBeacon, HeardFrame, CapabilityProfile;
    AsksAgain(x, k, time);
    asking := Step(Step(x, Transmit).0, Tick(time)).0;
    WaitingKept(x, asking, message);
    TransmitStep(y);
    var drained := Step(y, Transmit).0;
    assert y.out[1..] == [];
    SameDue(y, drained, wait);
    WaitStep(drained, wait);
    Ticked(drained, wait);
    still := Step(drained, Tick(wait)).0;
    var f := HelloFrame(asking);
    AskingHello(asking, k + 1);
    Audible(still, f);
    HeardIsHandled(still, f);
    var noted := Noted(still, Codec.Encode(f));
    NotedInv(still, noted.heard);
    Handled(noted, f);
    Answers.HelloAnsweredAgain(noted, f);
    answering := Step(still, Receive(Codec.Encode(f))).0;
    assert [] + [Sent(HelloAckFrame(y, x.session.nextMessage))] == y.out;
    StepInv(still, Receive(Codec.Encode(f)));
    AnswerHeard(asking, k + 1, answering, message);
    r := Step(Step(asking, Transmit).0, Receive(Codec.Encode(HelloAckFrame(answering, asking.session.nextMessage)))).0;
  }

  lemma AskingHello(x: Link, k: nat)
    requires Shape(x) && Asking(x, k)
    ensures var f := HelloFrame(x);
      && f.kind == HELLO && Canonical(f) && f.session == x.session.id && CapabilityProfile(f.value) == x.cfg.profile
  {
    HelloFramesCanonical(x, 0);
  }
}
