/**
  Session opening between two links over the channel, with one opening attempt a side: no reset and no exhausted
  retries. Frames are lost, duplicated and reordered, beacons and cancellations come and go.
 */
module Opening {
  import opened Bytes
  import opened Wire
  import opened LinkSpec
  import opened Reachable
  import opened Invariant
  import opened Effects
  import opened Sessions
  import opened DupCache
  import Channel
  import ChannelSender
  import Codec
  import EndToEnd

  // ------------------------------------------------------------ parties and runs

  // The session a link proposed.
  datatype Offer = Offer(id: u32, challenge: seq<byte>)

  /** A node with its own proposal, if it made one, and the window it started with. */
  datatype Party = Party(node: Channel.Node, offer: Option<Offer>, first: nat) {
    function Link(): LinkSpec.Link { node.link }
  }

  function After(p: Party, i: Input): (r: Party)
    requires Shape(p.node.link) && ValidInput(i)
    ensures Shape(r.node.link)
  {
    var n := Channel.After(p.node, i);
    Party(n, if !p.node.link.session.pending
      && n.link.session.pending then Some(Offer(n.link.session.id, n.link.session.challenge)) else p.offer,
          p.first)
  }

  predicate Utters(p: Party, f: Frame) {
    Channel.Utters(p.node, f)
  }

  // The opening is neither reset nor given up.
  predicate Attempt(x: Party, y: Party, i: Input)
    requires Shape(x.node.link)
  {
    && ValidInput(i) && Channel.Honest(y.node, i) && !i.Restart?
    && !Abandons(x.node.link, Step(x.node.link, i).0)
  }

  // ------------------------------------------------------------ the invariant

  function Agreed(x: Party, y: Party): nat {
    if x.first < y.first then x.first else y.first
  }

  // x has open the session it proposed.
  predicate Own(x: Party) {
    && x.node.link.session.open && x.node.link.session.helloAck.None?
    && x.offer == Some(Offer(x.node.link.session.id, x.node.link.session.challenge))
  }

  // x has open the session y proposed.
  predicate Adopted(x: Party, y: Party) {
    && x.node.link.session.open && x.node.link.session.helloAck.Some?
      && x.node.link.cfg.profile == y.node.link.cfg.profile
    && y.offer == Some(Offer(x.node.link.session.id, x.node.link.session.challenge))
    && x.node.link.window == Agreed(x, y)
    && (x.offer.Some? ==> Below(y.offer.value.id, x.offer.value.id))
  }

  predicate HelloOk(x: Party, f: Frame) {
    && x.offer == Some(Offer(f.session, f.payload))
    && CapabilityWindow(f.value) == x.first && CapabilityProfile(f.value) == x.node.link.cfg.profile
  }

  predicate HelloAckOk(x: Party, y: Party, f: Frame) {
    && Adopted(x, y) && f.session == x.node.link.session.id
    && CapabilityWindow(f.value) == x.node.link.window && CapabilityProfile(f.value) == x.node.link.cfg.profile
  }

  predicate FrameTrue(x: Party, y: Party, f: Frame) {
    (f.kind == HELLO ==> HelloOk(x, f)) && (f.kind == HELLO_ACK ==> HelloAckOk(x, y, f))
  }

  predicate Pending(x: Party) {
    && x.node.link.session.pending
    && x.offer == Some(Offer(x.node.link.session.id, x.node.link.session.challenge))
  }

  predicate Standing(x: Party, y: Party) {
    && MIN_WINDOW <= x.first <= MAX_WINDOW
    && (x.node.link.session.pending ==> Pending(x))
    && (!x.node.link.session.open ==> x.node.link.window == x.first && x.node.link.session.helloAck.None?)
    && (x.node.link.session.open ==> Adopted(x, y) || (Own(x) && Adopted(y, x) && x.node.link.window == Agreed(x, y)))
    && (x.offer.Some? ==> x.node.link.cfg.role.Initiator? && (x.node.link.session.pending || x.node.link.session.open))
  }

  ghost predicate Handshake(x: Party, y: Party) {
    Inv(x.node.link) && Standing(x, y) && forall f :: Utters(x, f) ==> FrameTrue(x, y, f)
  }

  // ------------------------------------------------------------ what an event does

  // The frame x hears, if it is part of an opening, is true of y.
  lemma HearsTruth(x: Party, y: Party, i: Input)
    requires Handshake(y, x) && Channel.Honest(y.node, i) && i.Receive? && HeardFrame(x.node.link, i.raw).Some?
    ensures FrameTrue(y, x, HeardFrame(x.node.link, i.raw).value)
  {
    hide Inv, Standing, FrameTrue, Codec.Decode;
    assert Utters(y, HeardFrame(x.node.link, i.raw).value);
  }

  // An open session stays.
  lemma OpenStays(x: Party, y: Party, i: Input)
    requires Handshake(x, y) && Handshake(y, x) && Shape(x.node.link) && Attempt(x, y, i) && x.node.link.session.open
    ensures SameSession(x.node.link, Step(x.node.link, i).0)
  {
    hide TxInv, RxInv, RowsInv, Step, HeardFrame, CapabilityProfile, Negotiated, Below, Channel.Honest;
    var l := x.node.link;
    StepSession(l, i);
    if i.Receive? && HeardFrame(l, i.raw).Some? {
      var f := HeardFrame(l, i.raw).value;
      HearsTruth(x, y, i);
    }
  }

  // What is left to say about an event is what it made of the session.
  predicate Moves(x: Party, y: Party, i: Input, x': Party)
    requires Shape(x.node.link)
  {
    && x'.first == x.first && x'.node.link.cfg == x.node.link.cfg
    && (x'.offer == if !x.node.link.session.pending && x'.node.link.session.pending
                    then Some(Offer(x'.node.link.session.id, x'.node.link.session.challenge)) else x.offer)
  }

  lemma EventMoves(x: Party, y: Party, i: Input)
    requires Shape(x.node.link) && Attempt(x, y, i)
    ensures Moves(x, y, i, After(x, i)) && After(x, i).node.link == Step(x.node.link, i).0
  {
    hide Step, Shape, Channel.AirAfter, Channel.SentAfter, Channel.StagedAfter, Channel.LatestAfter,
      Channel.DroppedAfter, Channel.CarriedAfter, Abandons;
    ChannelSender.StepConfig(x.node.link, i);
  }

  lemma StandingAfter(x: Party, y: Party, i: Input)
    requires Handshake(x, y) && Handshake(y, x) && Attempt(x, y, i)
    ensures Standing(After(x, i), y)
  {
    hide TxInv, RxInv, RowsInv, Step, Codec.Decode, After, Abandons;
    var l, x' := x.node.link, After(x, i);
    EventMoves(x, y, i);
    StepSession(l, i);
    if !SameSession(l, x'.node.link) && !(i.Submit? && Proposes(l, x'.node.link, i.entropy)) {
      if l.session.open { OpenStays(x, y, i); }
      HearsTruth(x, y, i);
    }
  }

  // ------------------------------------------------------------ the other side, and what is said

  // A proposal, once made, is the party's only one; an open session stays open.
  lemma Persists(x: Party, y: Party, i: Input)
    requires Handshake(x, y) && Handshake(y, x) && Attempt(x, y, i)
    ensures var x' := After(x, i);
      && (x.offer.Some? ==> x'.offer == x.offer)
      && x'.first == x.first && x'.node.link.cfg == x.node.link.cfg
      && (x.node.link.session.open ==> SameSession(x.node.link, x'.node.link))
  {
    hide TxInv, RxInv, RowsInv, Step, FrameTrue, After, Abandons, Channel.Honest, Adopted, Own;
    EventMoves(x, y, i);
    if x.node.link.session.open {
      OpenStays(x, y, i);
    }
  }

  lemma OtherStanding(x: Party, y: Party, i: Input)
    requires Handshake(x, y) && Handshake(y, x) && Attempt(x, y, i)
    ensures Standing(y, After(x, i))
  {
    hide TxInv, RxInv, RowsInv, SessionInv, Step, FrameTrue, After, Abandons, Channel.Honest, Below;
    var x' := After(x, i);
    Persists(x, y, i);
    if Adopted(x, y) {
      OfferOfOpen(x, y, x');
    }
  }

  // An open party makes no proposal.
  lemma OfferOfOpen(x: Party, y: Party, x': Party)
    requires Handshake(x, y) && x.node.link.session.open && SameSession(x.node.link, x'.node.link)
    requires exists i :: Shape(x.node.link) && ValidInput(i) && x' == After(x, i)
    ensures x'.offer == x.offer
  {
    hide TxInv, RxInv, RowsInv, Standing, FrameTrue, Step, Channel.AirAfter, Channel.SentAfter, Channel.StagedAfter,
      Channel.LatestAfter, Channel.DroppedAfter, Channel.CarriedAfter;
  }

  lemma OldFrames(x: Party, y: Party, i: Input, f: Frame)
    requires Handshake(x, y) && Handshake(y, x) && Attempt(x, y, i) && FrameTrue(x, y, f)
    ensures FrameTrue(After(x, i), y, f)
  {
    hide TxInv, RxInv, RowsInv, SessionInv, Step, After, Abandons, Channel.Honest, Standing, CapabilityWindow,
      CapabilityProfile;
    Persists(x, y, i);
    if f.kind == HELLO_ACK {
      OfferOfOpen(x, y, After(x, i));
    }
  }

  lemma OtherFrames(x: Party, y: Party, i: Input, f: Frame)
    requires Handshake(x, y) && Handshake(y, x) && Attempt(x, y, i) && FrameTrue(y, x, f)
    ensures FrameTrue(y, After(x, i), f)
  {
    hide TxInv, RxInv, RowsInv, SessionInv, Step, After, Abandons, Channel.Honest, Standing, CapabilityWindow,
      CapabilityProfile, Below, SameSession;
    Persists(x, y, i);
  }

  lemma RememberedIsAck(r: Link, f: Frame)
    requires RowsInv(r.out, r.dup) && Remembered(r.dup, Sent(f))
    ensures f.kind == ACK
  {
    hide RowOk, Canonical;
    var k :| 0 <= k < |r.dup| && r.dup[k].Held? && r.dup[k].ack == Sent(f);
    assert DupAck(r.dup[k]);
  }

  lemma NewFrame(l: Link, x: Party, y: Party, f: Frame)
    requires Shape(l) && Inv(x.node.link) && Standing(x, y) && Origin(l, x.node.link, Sent(f))
    ensures FrameTrue(x, y, f)
  {
    hide TxInv, RxInv, PartialAck, DataFrame, Below, Canonical;
    var r := x.node.link;
    if f.kind == HELLO || f.kind == HELLO_ACK {
      HelloFramesCanonical(r, f.message);
      if Remembered(r.dup, Sent(f)) { RememberedIsAck(r, f); }
    }
  }

  lemma FramesAfter(x: Party, y: Party, i: Input)
    requires Handshake(x, y) && Handshake(y, x) && Attempt(x, y, i)
    ensures forall f :: Utters(After(x, i), f) ==> FrameTrue(After(x, i), y, f)
  {
    hide TxInv, RxInv, RowsInv, SessionInv, Step, Standing, Channel.AirAfter, Channel.SentAfter, Channel.StagedAfter,
      Channel.LatestAfter, Channel.DroppedAfter, Channel.CarriedAfter, Channel.Utters, Origin, FreshData, Prepared,
      Abandons, HelloOk, HelloAckOk;
    var l, x' := x.node.link, After(x, i);
    StepInv(l, i);
    StandingAfter(x, y, i);
    var t := l.tx;
    if Adds(i) { t := StepEffect(l, i); }
    forall f | Utters(x', f)
      ensures FrameTrue(x', y, f)
    {
      ChannelSender.UtteredBefore(x.node, i, f);
      if Utters(x, f) {
        OldFrames(x, y, i, f);
      } else {
        var r := x'.node.link;
        var k :| 0 <= k < |r.out[|l.out|..]| && r.out[|l.out|..][k] == Sent(f);
        assert r.out[|l.out| + k] == Sent(f);
        if !i.Announce? { NewFrame(l, x', y, f); }
      }
    }
  }

  // One event at x keeps both halves.
  lemma HandshakeAfter(x: Party, y: Party, i: Input)
    requires Handshake(x, y) && Handshake(y, x) && Attempt(x, y, i)
    ensures Handshake(After(x, i), y) && Handshake(y, After(x, i))
  {
    hide TxInv, RxInv, RowsInv, SessionInv, Shape, Step, Standing, FrameTrue, Channel.AirAfter, Channel.SentAfter,
      Channel.StagedAfter, Channel.LatestAfter, Channel.DroppedAfter, Channel.CarriedAfter, Channel.Utters, Abandons;
    StepInv(x.node.link, i);
    StandingAfter(x, y, i);
    OtherStanding(x, y, i);
    FramesAfter(x, y, i);
    forall f | Utters(y, f)
      ensures FrameTrue(y, After(x, i), f)
    {
      OtherFrames(x, y, i, f);
    }
  }

  // ------------------------------------------------------------ every run

  datatype Pair = Pair(a: Party, b: Party)

  predicate Shaped(s: Pair) {
    Shape(s.a.node.link) && Shape(s.b.node.link)
  }

  function Act(s: Pair, t: EndToEnd.Turn): (r: Pair)
    requires Shaped(s) && ValidInput(t.input)
    ensures Shaped(r)
  {
    if t.first then Pair(After(s.a, t.input), s.b) else Pair(s.a, After(s.b, t.input))
  }

  function Play(s: Pair, turns: seq<EndToEnd.Turn>): (r: Pair)
    requires Shaped(s) && EndToEnd.Valid(turns)
    ensures Shaped(r)
    decreases |turns|
  {
    if turns == [] then s else Act(Play(s, turns[..|turns| - 1]), turns[|turns| - 1])
  }

  // Every event of the run is part of one attempt a side.
  predicate Attempts(s: Pair, turns: seq<EndToEnd.Turn>)
    requires Shaped(s) && EndToEnd.Valid(turns)
    decreases |turns|
  {
    turns == [] ||
    var before, t := Play(s, turns[..|turns| - 1]), turns[|turns| - 1];
    Attempts(s, turns[..|turns| - 1]) && if t.first then Attempt(before.a, before.b, t.input)
      else Attempt(before.b, before.a, t.input)
  }

  function Start(cfgA: Config, windowA: nat, cfgB: Config, windowB: nat): (s: Pair)
    requires ValidConfig(cfgA, windowA) && ValidConfig(cfgB, windowB)
    ensures Shaped(s)
  {
    Pair(Party(Channel.Fresh(cfgA, windowA), None, windowA), Party(Channel.Fresh(cfgB, windowB), None, windowB))
  }

  lemma FreshHandshake(cfgA: Config, windowA: nat, cfgB: Config, windowB: nat)
    requires ValidConfig(cfgA, windowA) && ValidConfig(cfgB, windowB)
    ensures var s := Start(cfgA, windowA, cfgB, windowB); Handshake(s.a, s.b) && Handshake(s.b, s.a)
  {
    hide TxInv, RxInv, RowsInv, SessionInv, Recompute, NoneSet, NoSegments, NoDuplicates, ZeroChallenge, Shape,
      FrameTrue;
    InitialInv(cfgA, windowA);
    InitialInv(cfgB, windowB);
  }

  lemma {:induction false} EveryRunShakesHands(cfgA: Config, windowA: nat, cfgB: Config, windowB: nat,
      turns: seq<EndToEnd.Turn>)
    requires ValidConfig(cfgA, windowA) && ValidConfig(cfgB, windowB)
    requires EndToEnd.Valid(turns) && Attempts(Start(cfgA, windowA, cfgB, windowB), turns)
    ensures var s := Play(Start(cfgA, windowA, cfgB, windowB), turns); Handshake(s.a, s.b) && Handshake(s.b, s.a)
    decreases |turns|
  {
    hide Handshake, Attempt, After, Channel.Fresh;
    if turns == [] {
      FreshHandshake(cfgA, windowA, cfgB, windowB);
    } else {
      var s0, n := Start(cfgA, windowA, cfgB, windowB), |turns| - 1;
      EveryRunShakesHands(cfgA, windowA, cfgB, windowB, turns[..n]);
      var s, t := Play(s0, turns[..n]), turns[n];
      if t.first { HandshakeAfter(s.a, s.b, t.input); } else { HandshakeAfter(s.b, s.a, t.input); }
    }
  }

  /** In every such run: only links of one profile open; a link that has its own proposal open has a peer that is open
      with the same session id and the same window, the smaller of the two; two links that are both open share session
      and window; and when both proposed, that session is the one with the smaller id. */
  lemma OpeningAgreement(cfgA: Config, windowA: nat, cfgB: Config, windowB: nat, turns: seq<EndToEnd.Turn>)
    requires ValidConfig(cfgA, windowA) && ValidConfig(cfgB, windowB)
    requires EndToEnd.Valid(turns) && Attempts(Start(cfgA, windowA, cfgB, windowB), turns)
    ensures var s := Play(Start(cfgA, windowA, cfgB, windowB), turns); Agreement(s.a, s.b) && Agreement(s.b, s.a)
  {
    hide Start, Play, Attempts, Inv, FrameTrue;
    EveryRunShakesHands(cfgA, windowA, cfgB, windowB, turns);
    var s := Play(Start(cfgA, windowA, cfgB, windowB), turns);
  }

  predicate Agreement(x: Party, y: Party) {
    var p, q := x.node.link, y.node.link;
    && (p.session.open ==> p.cfg.profile == q.cfg.profile)
    && (p.session.open && x.offer.Some? && x.offer.value.id == p.session.id ==>
          q.session.open && q.session.id == p.session.id && p.window == q.window == Agreed(x, y))
    && (p.session.open && q.session.open ==> p.session.id == q.session.id && p.window == q.window)
    && (p.session.open && q.session.open && x.offer.Some? && y.offer.Some? ==>
          p.session.id == if x.offer.value.id < y.offer.value.id then x.offer.value.id else y.offer.value.id)
  }

  /** Two proposals with one id open nothing: in every such run that has made them, both links are still pending. */
  lemma EqualProposalsOpenNothing(cfgA: Config, windowA: nat, cfgB: Config, windowB: nat, turns: seq<EndToEnd.Turn>)
    requires ValidConfig(cfgA, windowA) && ValidConfig(cfgB, windowB)
    requires EndToEnd.Valid(turns) && Attempts(Start(cfgA, windowA, cfgB, windowB), turns)
    ensures var s := Play(Start(cfgA, windowA, cfgB, windowB), turns);
      s.a.offer.Some? && s.b.offer.Some? && s.a.offer.value.id == s.b.offer.value.id ==>
        !s.a.node.link.session.open && s.a.node.link.session.pending
        && !s.b.node.link.session.open && s.b.node.link.session.pending
  {
    hide Start, Play, Attempts, Inv, FrameTrue;
    EveryRunShakesHands(cfgA, windowA, cfgB, windowB, turns);
  }
}
