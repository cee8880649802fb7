/**
  Runs of two links, frame by frame, that reach two of the limits: a reused message id that ends in KAL_OK undelivered,
  and an acknowledged segment that a replaced session leaves nobody holding.
 */
module Encounters {
  import opened Bytes
  import opened Wire
  import opened LinkSpec
  import opened Reachable
  import opened Invariant
  import opened Effects
  import opened Receiving
  import opened DupCache
  import opened Channel
  import opened EndToEnd
  import Codec
  import Exhaustion
  import Integrity
  import Limits
  import Lossless
  import Runs
  import Sessions

  // ------------------------------------------------------------ scripts

  /** An event at one side, or the oldest frame of one side travelling to the other. */
  datatype Move = Ask(first: bool, input: Input) | Carry(first: bool)

  predicate ValidMove(m: Move) {
    m.Ask? ==> ValidInput(m.input)
  }

  // The frame a side would put on air next.
  function Uttered(l: Link): Option<Frame> {
    if l.out != [] && l.out[0].Sent? && Canonical(l.out[0].frame) then Some(l.out[0].frame) else None
  }

  function Do(s: System, m: Move): (r: System)
    requires Shaped(s) && ValidMove(m)
    ensures Shaped(r)
  {
    hide Shape, After, Canonical;
    match m
    case Ask(first, input) => Act(s, Turn(first, input))
    case Carry(first) =>
      var f := Uttered((if first then s.a else s.b).link);
      if f.None? then s
      else
        Act(Act(s, Turn(first, Transmit)), Turn(!first, Receive(Codec.Encode(f.value))))
  }

  function Perform(s: System, moves: seq<Move>): (r: System)
    requires Shaped(s) && forall m <- moves :: ValidMove(m)
    ensures Shaped(r)
    decreases |moves|
  {
    if moves == [] then s else Do(Perform(s, moves[..|moves| - 1]), moves[|moves| - 1])
  }

  // ------------------------------------------------------------ what a move does

  lemma AskLink(s: System, first: bool, i: Input)
    requires Shaped(s) && ValidInput(i)
    ensures var (x, y, r) := (if first then s.a else s.b, if first then s.b else s.a, Do(s, Ask(first, i)));
            var (x', y') := (if first then r.a else r.b, if first then r.b else r.a);
            x' == After(x, i) && y' == y && x'.link == Step(x.link, i).0
  {
    hide Shape, Step, AirAfter, SendingAfter, SentAfter, StagedAfter, LatestAfter, DroppedAfter, CarriedAfter;
  }

  // The only frame of x is f, and y has not just heard it.
  predicate Bears(x: Node, y: Node, f: Frame) {
    && Inv(x.link) && Inv(y.link) && x.link.out == [Sent(f)] && Canonical(f)
    && (y.link.heard.Some? ==> y.link.heard.value.raw != Codec.Encode(f))
  }

  lemma CarryLinks(s: System, first: bool, f: Frame)
    requires Shaped(s) && Bears(if first then s.a else s.b, if first then s.b else s.a, f)
    ensures var (x, y, r) := (if first then s.a else s.b, if first then s.b else s.a, Do(s, Carry(first)));
            var (x', y') := (if first then r.a else r.b, if first then r.b else r.a);
      && x' == After(x, Transmit) && y' == After(y, Receive(Codec.Encode(f)))
      && x'.link == x.link.(out := []) && Inv(x'.link)
      && Step(y.link, Receive(Codec.Encode(f))) == HandleFrame(Noted(y.link, Codec.Encode(f)), f)
      && y'.link == HandleFrame(Noted(y.link, Codec.Encode(f)), f).0 && Inv(y'.link)
      && HeardFrame(y.link, Codec.Encode(f)) == Some(f) && x'.sending == x.sending && y'.sending == y.sending
  {
    hide Inv, Shape, Step, AirAfter, SentAfter, StagedAfter, LatestAfter, DroppedAfter, CarriedAfter,
      Codec.Decode, Codec.Encode, HandleFrame, Canonical, Hear;
    var (x, y) := (if first then s.a else s.b, if first then s.b else s.a);
    Lossless.TransmitStep(x.link);
    assert x.link.out[1..] == [];
    HearsEncoded(y.link, f);
    StepIsHear(y.link, Receive(Codec.Encode(f)));
    StepInv(y.link, Receive(Codec.Encode(f)));
    Codec.DecodeEncode(f);
  }

  // ------------------------------------------------------------ two links meet

  // Nothing received, remembered or staged.
  predicate Blank(n: Node) {
    && Inv(n.link) && !n.link.rx.active && n.link.dup == NoDuplicates() && !n.link.delivery.ready
    && n.staged == map[] && n.dropped == {}
  }

  // The last frame heard was of that kind, or nothing was heard.
  predicate LastHeard(l: Link, kind: u8) {
    l.heard.Some? ==> Codec.Decode(l.heard.value.raw).Good? && Codec.Decode(l.heard.value.raw).frame.kind == kind
  }

  lemma NotedKind(l: Link, f: Frame)
    requires Shape(l) && Canonical(f)
    ensures LastHeard(Noted(l, Codec.Encode(f)), f.kind)
  {
    hide Shape, Codec.Decode, Canonical, Codec.Encode;
    Codec.DecodeEncode(f);
  }

  // A frame of another kind is not the last one heard, nor is it one of the frames a transfer waits for.
  lemma OtherKind(l: Link, kind: u8, f: Frame)
    requires LastHeard(l, kind) && Canonical(f) && f.kind != kind
    ensures l.heard.Some? ==> l.heard.value.raw != Codec.Encode(f)
    ensures forall key: Key, m: nat :: Lossless.Older(l.heard, f.kind, key, m)
  {
    hide Codec.Decode, Canonical, Codec.Encode;
    Codec.DecodeEncode(f);
  }

  lemma BookKept(n: Node, i: Input)
    requires Inv(n.link) && ValidInput(i) && !HearsKind(n.link, i, DATA) && !n.link.rx.active
    ensures var r := After(n, i); r.staged == n.staged && r.dropped == n.dropped
  {
    hide TxInv, RxInv, SessionInv, RowsInv, Step, HeardFrame, AirAfter, SendingAfter, SentAfter, LatestAfter,
      CarriedAfter, Discards, DataDrops;
  }

  // A proposal for message m is in a's ring, b has done nothing.
  predicate Proposed(s: System, m: seq<byte>)
    requires Shaped(s)
  {
    hide Shape, Inv, Blank, Runs.Waiting, HelloFrame, Canonical;
    var (x, y) := (s.a.link, s.b.link);
    && x.cfg.role.Initiator? && y.cfg.role.Responder? && x.cfg.profile == y.cfg.profile
    && x.session.pending && x.session.nextMessage == 0 && x.tx.message == 0 && s.a.sending == m && x.heard.None?
    && !y.session.open && y.session.nextMessage == 1 && !y.tx.active && y.out == [] && y.heard.None?
    && x.out == [Sent(HelloFrame(x))] && Canonical(HelloFrame(x))
    && Blank(s.a) && Blank(s.b) && Runs.Waiting(x, m)
  }

  lemma FreshBlank(cfg: Config, window: nat)
    requires ValidConfig(cfg, window)
    ensures var n := Fresh(cfg, window);
      && Blank(n) && n.link.cfg == cfg && !n.link.session.open && !n.link.session.pending && !n.link.tx.active
      && n.link.out == [] && n.link.heard.None? && n.link.session.nextMessage == FirstMessage(cfg.role)
      && n.link.window == window
  {
    hide TxInv, RxInv, SessionInv, RowsInv, Recompute, NoDuplicates, NoneSet, NoSegments;
    InitialInv(cfg, window);
  }

  // kal_send at a node with no session.
  lemma SubmitProposes(n: Node, m: seq<byte>, e: Entropy)
    requires Inv(n.link) && n.link.cfg.role.Initiator? && !n.link.session.open && !n.link.session.pending
      && !n.link.tx.active
    requires n.link.out == [] && |m| <= n.link.cfg.maxMessage && |e.challenge| == CHALLENGE_BYTES
    ensures ValidInput(Submit(m, Some(e)))
    ensures var r := After(n, Submit(m, Some(e)));
      && Inv(r.link) && Runs.Waiting(r.link, m) && Runs.SameReceiver(n.link, r.link)
      && r.link.out == [Sent(HelloFrame(r.link))] && Canonical(HelloFrame(r.link)) && r.link.session.pending
      && r.link.session.id == (if e.session == 0 then 1 else e.session)
      && r.link.session.nextMessage == n.link.session.nextMessage && r.link.tx.message == n.link.session.nextMessage
      && r.link.heard == n.link.heard && r.link.window == n.link.window && r.sending == m
  {
    hide TxInv, RxInv, SessionInv, RowsInv, Step, Send, Load, Canonical, AirAfter, SentAfter, StagedAfter, LatestAfter,
      DroppedAfter, CarriedAfter;
    Runs.SubmitIsSend(n.link, m, Some(e));
    Runs.Proposes(n.link, m, e);
    Runs.LoadWaits(n.link, m);
    WaitingKept(Load(n.link, m), After(n, Submit(m, Some(e))).link, m);
  }

  lemma WaitingKept(l: Link, r: Link, m: seq<byte>)
    requires Shape(l) && Shape(r) && r.tx == l.tx && Runs.Waiting(l, m)
    ensures Runs.Waiting(r, m)
  {
    hide Shape, Chunk, Transfer, SegmentCount;
  }

  lemma Scene1(cfgA: Config, windowA: nat, cfgB: Config, windowB: nat, m: seq<byte>, e: Entropy)
    requires ValidConfig(cfgA, windowA) && ValidConfig(cfgB, windowB)
    requires cfgA.role.Initiator? && cfgB.role.Responder? && cfgA.profile == cfgB.profile && |m| <= cfgA.maxMessage
    requires |e.challenge| == CHALLENGE_BYTES
    ensures ValidInput(Submit(m, Some(e)))
    ensures var r := Do(Start(cfgA, windowA, cfgB, windowB), Ask(true, Submit(m, Some(e))));
            Proposed(r, m) && r.a.link.session.id == (if e.session == 0 then 1 else e.session)
  {
    hide Inv, Step, Canonical, Initial, HelloFrame, Runs.Waiting, After;
    var s := Start(cfgA, windowA, cfgB, windowB);
    FreshBlank(cfgA, windowA);
    FreshBlank(cfgB, windowB);
    SubmitProposes(s.a, m, e);
    BookKept(s.a, Submit(m, Some(e)));
    AskLink(s, true, Submit(m, Some(e)));
  }

  // b answered and its answer is in its ring.
  predicate Answered(s: System, m: seq<byte>)
    requires Shaped(s)
  {
    hide Shape, Inv, Blank, Runs.Waiting, HelloAckFrame, Canonical, LastHeard;
    var (x, y) := (s.a.link, s.b.link);
    && x.cfg.role.Initiator? && y.cfg.role.Responder? && x.cfg.profile == y.cfg.profile
    && x.session.pending && x.session.nextMessage == 0 && x.tx.message == 0 && s.a.sending == m && x.heard.None?
      && x.out == []
    && y.session.open && y.session.nextMessage == 1 && !y.tx.active && LastHeard(y, HELLO)
    && y.session.id == x.session.id && y.session.challenge == x.session.challenge && y.window <= x.window
    && y.out == [Sent(HelloAckFrame(y, 0))] && Canonical(HelloAckFrame(y, 0))
    && Blank(s.a) && Blank(s.b) && Runs.Waiting(x, m)
  }

  // What a link hears without being sent DATA leaves its books alone.
  lemma CarryBooks(s: System, first: bool, f: Frame)
    requires Shaped(s) && Bears(if first then s.a else s.b, if first then s.b else s.a, f) && f.kind != DATA
    requires !s.a.link.rx.active && !s.b.link.rx.active
    ensures var r := Do(s, Carry(first));
      && r.a.staged == s.a.staged && r.a.dropped == s.a.dropped && r.b.staged == s.b.staged
        && r.b.dropped == s.b.dropped
      && r.a.sending == s.a.sending && r.b.sending == s.b.sending
  {
    hide Inv, Step, HeardFrame, Canonical, Codec.Encode, HandleFrame, Do, StagedAfter, DroppedAfter, AirAfter,
      SentAfter, LatestAfter, CarriedAfter;
    CarryLinks(s, first, f);
    var (x, y) := (if first then s.a else s.b, if first then s.b else s.a);
    BookKept(x, Transmit);
    BookKept(y, Receive(Codec.Encode(f)));
  }

  lemma Scene2(s: System, m: seq<byte>)
    requires Shaped(s) && Proposed(s, m)
    ensures var r := Do(s, Carry(true)); Answered(r, m) && r.a.link.session.id == s.a.link.session.id
  {
    hide Inv, Step, Canonical, HeardFrame, Codec.Encode, Codec.Decode, HandleFrame, HandleHello, Runs.Waiting, Do,
      Negotiated, CapabilityProfile, Shape, NoDuplicates, LastHeard, After, HandleHelloAck, HandleData, HandleAck,
      HandleBeacon;
    var (x, y, f) := (s.a.link, s.b.link, HelloFrame(s.a.link));
    CarryLinks(s, true, f);
    CarryBooks(s, true, f);
    Runs.HelloOffer(x, y);
    var noted := Noted(y, Codec.Encode(f));
    Sessions.SameOffer(noted, y, f);
    NotedInv(y, noted.heard);
    NotedKind(y, f);
    Handled(noted, f);
    Runs.Accepts(noted, f);
    WaitingKept(x, Do(s, Carry(true)).a.link, m);
    LastKept(noted, Do(s, Carry(true)).b.link, HELLO);
  }

  lemma LastKept(l: Link, r: Link, kind: u8)
    requires LastHeard(l, kind) && r.heard == l.heard
    ensures LastHeard(r, kind)
  {
    hide Codec.Decode;
  }

  // Both are open on a's session with one window; a has its first window for message m in the ring, b has been idle.
  predicate Met(s: System, m: seq<byte>)
    requires Shaped(s)
  {
    hide Shape, Inv, Blank, LastHeard, Lossless.Sending;
    var (x, y) := (s.a.link, s.b.link);
    && x.cfg.role.Initiator? && y.cfg.role.Responder? && x.cfg.profile == y.cfg.profile
    && x.session.open && y.session.open && y.session.id == x.session.id && x.window == y.window
    && x.session.nextMessage == 0 && x.tx.message == 0 && y.session.nextMessage == 1 && !y.tx.active && y.out == []
    && s.a.sending == m && LastHeard(x, HELLO_ACK) && LastHeard(y, HELLO)
    && Blank(s.a) && Blank(s.b) && Lossless.Sending(x, m, 0)
  }

  lemma Scene3(s: System, m: seq<byte>)
    requires Shaped(s) && Answered(s, m)
    ensures var r := Do(s, Carry(false)); Met(r, m) && r.a.link.session.id == s.a.link.session.id
  {
    hide Inv, Step, Canonical, HeardFrame, Codec.Encode, Codec.Decode, HandleFrame, HandleHelloAck, Runs.Waiting, Do,
      Negotiated, CapabilityProfile, Shape, NoDuplicates, LastHeard, After, Lossless.Sending, HandleHello, HandleData,
      HandleAck, HandleBeacon;
    var (x, y, f) := (s.a.link, s.b.link, HelloAckFrame(s.b.link, 0));
    CarryLinks(s, false, f);
    CarryBooks(s, false, f);
    Runs.HelloAckOffer(x, y);
    var noted := Noted(x, Codec.Encode(f));
    Sessions.SameOffer(noted, x, f);
    NotedInv(x, noted.heard);
    NotedKind(x, f);
    Handled(noted, f);
    WaitingKept(x, noted, m);
    Runs.Confirms(noted, f, m);
    LastKept(noted, Do(s, Carry(false)).a.link, HELLO_ACK);
    LastKept(y, Do(s, Carry(false)).b.link, HELLO);
  }

  // ------------------------------------------------------------ a reused message id

  // The delivered acknowledgement of a message of one segment.
  function Receipt1(id: u32): (f: Frame)
    ensures Canonical(f) && f.kind == ACK
  {
    Frame(ACK, id, 0, 1, 0, FLAG_ACK_DELIVERED, [])
  }

  // y staged the message m of key (id, 0), whose first and only segment was f, and remembers its receipt.
  predicate Remembers1(y: Node, id: u32, m: seq<byte>, f: Frame) {
    && y.link.session.open && y.link.session.id == id && y.link.delivery == Delivery(true, false, m)
    && y.staged == map[Key(id, 0) := m] && Canonical(f) && y.link.heard.Some?
      && y.link.heard.value.raw == Codec.Encode(f)
    && DupLookup(y.link.dup, y.link.timer.now, id, 0).1 == Some(Sent(Receipt1(id))) && Inv(y.link)
  }

  // A delivered key is remembered with its receipt.
  lemma DeliveryRemembered(l: Link, f: Frame)
    requires Inv(l) && f.kind == DATA && Canonical(f) && HandleData(l, f).1 == Delivered
    ensures var r := HandleData(l, f).0; DupLookup(r.dup, r.timer.now, f.session, f.message).1 == Some(Sent(Receipt(f)))
  {
    hide TxInv, RxInv, SessionInv, RowsInv, Canonical, DupLookup, DupStore, OneMore, SameSegments;
    HandleDataDup(l, f);
    HandleDataStep(l, f);
    var r := HandleData(l, f).0;
    var pruned: seq<DupEntry>, ack :| Pruned(l.dup, pruned, l.timer.now)
      && Missing(pruned, l.timer.now, f.session, f.message)
         && 0 < |pruned| && r.dup == DupStore(pruned, l.timer.now, l.cfg.airtime, f.session, f.message, ack);
    FoundByLookup(pruned, l.timer.now, l.cfg.airtime, f, ack);
    LookupMisses(r.dup, r.timer.now, f.session, f.message);
    DupLookupEntries(r.dup, r.timer.now, f.session, f.message);
    LookupMisses(l.dup, l.timer.now, f.session, f.message);
  }

  lemma FoundByLookup(dup: seq<DupEntry>, now: nat, airtime: nat, f: Frame, ack: Row)
    requires 0 < |dup| && 0 < airtime
    ensures !Missing(DupStore(dup, now, airtime, f.session, f.message, ack), now, f.session, f.message)
  {
    hide DupVictim;
    var v := DupVictim(dup, now, f.session, f.message, 0, None);
    assert Live(DupStore(dup, now, airtime, f.session, f.message, ack)[v], now);
  }

  // The only frame of a window of one segment.
  lemma OneFrame(x: Link, m: seq<byte>)
    requires Shape(x) && Lossless.Sending(x, m, 0) && (x.window == 1 || SegmentCount(|m|) == Some(1))
    ensures |m| <= MAX_MESSAGE_BYTES && 0 < x.tx.total && SegmentCount(|m|) == Some(x.tx.total)
    ensures x.out == [Sent(DataFrame(x, 0))] && Inv(x) && x.tx.active && x.session.open
    ensures Lossless.Segment(DataFrame(x, 0), m, TxKey(x), x.tx.total, 0)
  {
    hide Inv, DataFrame, Chunk, Transfer, SegmentCount, Lossless.Segment, Canonical;
    Lossless.OnWindowInv(x, m, 0);
    assert Lossless.Frames(x, 0, 1) == [Sent(DataFrame(x, 0))];
    Lossless.FrameIsSegment(x, m, 0);
  }

  predicate Given(s: System, m: seq<byte>, f: Frame)
    requires Shaped(s)
  {
    hide Shape, Inv, LastHeard, Remembers1, Chunk, Transfer;
    var (x, y) := (s.a.link, s.b.link);
    && x.session.open && x.session.nextMessage == 0 && x.tx.active && x.tx.message == 0 && x.out == []
      && LastHeard(x, HELLO_ACK)
    && f.session == x.session.id && f.kind == DATA && f.message == 0 && f.payload == Chunk(Transfer(m), 0)
    && y.out == [Sent(Receipt1(x.session.id))] && Inv(x) && Remembers1(s.b, x.session.id, m, f)
  }

  lemma DataReaches(y: Node, f: Frame, m: seq<byte>, key: Key)
    requires Blank(y) && Shape(y.link) && y.link.session.open && y.link.session.id == key.session
      && |m| <= y.link.cfg.maxMessage
    requires y.link.out == [] && key.message == 0 && SegmentCount(|m|) == Some(1) && Lossless.Segment(f, m, key, 1, 0)
    ensures var r := HandleFrame(Noted(y.link, Codec.Encode(f)), f);
      && r.1 == Delivered && r.0.delivery == Delivery(true, false, m)
      && r.0.out == [Sent(Receipt1(key.session))] && r.0.session == y.link.session
      && r.0.heard == Noted(y.link, Codec.Encode(f)).heard
      && DupLookup(r.0.dup, r.0.timer.now, key.session, 0).1 == Some(Sent(Receipt1(key.session)))
  {
    hide Inv, Shape, Canonical, HandleFrame, HandleData, SegmentCount, Chunk, Transfer, Codec.Encode, DupLookup,
      HandleHello, HandleHelloAck, HandleAck, HandleBeacon;
    var noted := Noted(y.link, Codec.Encode(f));
    NotedInv(y.link, noted.heard);
    Lossless.ReadyKept(y.link, noted, Lossless.Task(m, key, y.link.window, 1), 0);
    Handled(noted, f);
    Lossless.HeardKept(noted, f);
    Exhaustion.DataSession(noted, f);
    Lossless.ReceiveLast(noted, f, m, key, 1);
    DeliveryRemembered(noted, f);
  }

  lemma StagedBooks(y: Node, f: Frame)
    requires Shape(y.link) && Canonical(f) && f.kind == DATA && HeardFrame(y.link, Codec.Encode(f)) == Some(f)
    ensures var i := Receive(Codec.Encode(f));
            After(y, i).staged == if Step(y.link, i).1 == Delivered
              then y.staged[Key(f.session, f.message) := Step(y.link, i).0.delivery.message]
                                  else y.staged
  {
    hide Shape, Step, HeardFrame, Canonical, Codec.Encode, AirAfter, SendingAfter, SentAfter, LatestAfter, DroppedAfter,
      CarriedAfter;
  }

  // The message arrives and its receipt is in b's ring.
  lemma Scene4(s: System, m: seq<byte>)
    requires Shaped(s) && Met(s, m) && SegmentCount(|m|) == Some(1) && |m| <= s.b.link.cfg.maxMessage
    ensures var (r, f) := (Do(s, Carry(true)), DataFrame(s.a.link, 0)); s.a.link.tx.total == 1 && Given(r, m, f)
    ensures Do(s, Carry(true)).a.link.cfg == s.a.link.cfg && Do(s, Carry(true)).b.link.cfg == s.b.link.cfg
  {
    hide Inv, Step, Canonical, HeardFrame, Codec.Encode, Codec.Decode, HandleFrame, Do, Shape, LastHeard, After,
      Lossless.Sending, SegmentCount, Lossless.Segment, DupLookup, Chunk, Transfer, DataFrame;
    var (x, y) := (s.a.link, s.b.link);
    OneFrame(x, m);
    var f, key := DataFrame(x, 0), TxKey(x);
    SegmentFacts(f, m, key, 1);
    OtherKind(y, HELLO, f);
    CarryLinks(s, true, f);
    DataReaches(s.b, f, m, key);
    StagedBooks(s.b, f);
    LastKept(x, Do(s, Carry(true)).a.link, HELLO_ACK);
    Exhaustion.ConfigKept(y, Receive(Codec.Encode(f)));
  }

  lemma SegmentFacts(f: Frame, m: seq<byte>, key: Key, total: nat)
    requires Lossless.Segment(f, m, key, total, 0)
    ensures f.kind == DATA && Canonical(f) && Key(f.session, f.message) == key && f.payload == Chunk(Transfer(m), 0)
  {
    hide Canonical, Chunk, Transfer;
  }

  // a is open with nothing to send; b remembers the message.
  predicate Cleared(s: System, m: seq<byte>, f: Frame)
    requires Shaped(s)
  {
    hide Shape, Inv, LastHeard, Remembers1, Chunk, Transfer;
    var (x, y) := (s.a.link, s.b.link);
    && x.session.open && x.session.nextMessage == 0 && !x.tx.active && x.out == [] && LastHeard(x, HELLO_ACK)
    && f.session == x.session.id && f.kind == DATA && f.message == 0 && f.payload == Chunk(Transfer(m), 0)
    && y.out == [] && Inv(x) && Remembers1(s.b, x.session.id, m, f)
  }

  lemma TransmitNode(n: Node)
    requires Inv(n.link) && n.link.out != []
    ensures var r := After(n, Transmit);
      && r.link == n.link.(out := n.link.out[1..]) && Inv(r.link) && r.staged == n.staged && r.dropped == n.dropped
        && r.sending == n.sending && n.link.out[0] in r.air
  {
    hide Inv, Step, SentAfter, LatestAfter, CarriedAfter;
    InvShape(n.link);
    Lossless.TransmitStep(n.link);
  }

  lemma AbortNode(n: Node)
    requires Inv(n.link) && n.link.out == []
    ensures var r := After(n, Abort(0));
      && Inv(r.link) && r.link.out == [Sent(CancelFrame(n.link, 0))] && !r.link.tx.active
      && r.link.session == n.link.session && r.link.heard == n.link.heard && r.link.dup == n.link.dup
      && r.link.delivery == n.link.delivery && r.link.cfg == n.link.cfg && r.link.window == n.link.window
      && r.link.rx == ClearRx(n.link.rx)
  {
    hide Inv, Step, AirAfter, SentAfter, LatestAfter, CarriedAfter, StagedAfter, DroppedAfter;
    InvShape(n.link);
    StepInv(n.link, Abort(0));
    AbortStep(n.link);
  }

  lemma AbortStep(l: Link)
    requires Shape(l) && l.out == []
    ensures var r := Step(l, Abort(0)).0;
      && r.out == [Sent(CancelFrame(l, 0))] && !r.tx.active && r.session == l.session && r.heard == l.heard
      && r.dup == l.dup && r.delivery == l.delivery && r.cfg == l.cfg && r.window == l.window && r.rx == ClearRx(l.rx)
  {
    hide Shape, Canonical, CancelFrame, NoneSet, NoSegments, Send, Beacon, AdvanceTime, Hear, TakeRow, Collect, Reset;
    CancelFrameCanonical(l, 0);
  }

  // The receipt and the CANCEL are lost.
  lemma Scene5(s: System, m: seq<byte>, f: Frame)
    requires Shaped(s) && Given(s, m, f)
    ensures var r := Do(Do(Do(s, Ask(false, Transmit)), Ask(true, Abort(0))), Ask(true, Transmit));
            Cleared(r, m, f) && r.a.link.cfg == s.a.link.cfg && r.b.link.cfg == s.b.link.cfg
  {
    hide Inv, Step, Canonical, Codec.Encode, Codec.Decode, Do, Shape, LastHeard, After, DupLookup, Chunk, Transfer;
    AskLink(s, false, Transmit);
    TransmitNode(s.b);
    var s1 := Do(s, Ask(false, Transmit));
    assert s.b.link.out[1..] == [];
    AskLink(s1, true, Abort(0));
    AbortNode(s1.a);
    var s2 := Do(s1, Ask(true, Abort(0)));
    AskLink(s2, true, Transmit);
    TransmitNode(s2.a);
    assert s2.a.link.out[1..] == [];
    LastKept(s.a.link, Do(s2, Ask(true, Transmit)).a.link, HELLO_ACK);
  }

  // The second message is in a's ring under the key of the first.
  predicate Again(s: System, m: seq<byte>, f: Frame, next: seq<byte>)
    requires Shaped(s)
  {
    hide Shape, Inv, LastHeard, Remembers1, Chunk, Transfer, Lossless.Sending;
    var (x, y) := (s.a.link, s.b.link);
    && x.session.id == f.session && x.tx.message == 0 && f.kind == DATA && f.message == 0
      && f.payload == Chunk(Transfer(m), 0)
    && y.out == [] && s.a.sending == next && LastHeard(x, HELLO_ACK)
    && Remembers1(s.b, x.session.id, m, f) && Lossless.Sending(x, next, 0)
  }

  lemma SubmitNode(n: Node, m: seq<byte>)
    requires Inv(n.link) && n.link.session.open && !n.link.tx.active && n.link.out == [] && |m| <= n.link.cfg.maxMessage
    ensures ValidInput(Submit(m, None))
    ensures var r := After(n, Submit(m, None));
      && Lossless.Sending(r.link, m, 0) && r.link.session == n.link.session && r.link.window == n.link.window
      && r.link.tx.message == n.link.session.nextMessage && r.link.heard == n.link.heard && r.sending == m
  {
    hide Inv, Step, Send, Lossless.Sending, AirAfter, SentAfter, StagedAfter, LatestAfter, DroppedAfter, CarriedAfter;
    InvShape(n.link);
    Runs.SubmitIsSend(n.link, m, None);
    Lossless.SendStarts(n.link, m);
    Lossless.SendHeard(n.link, m);
  }

  lemma Scene6(s: System, m: seq<byte>, f: Frame, next: seq<byte>)
    requires Shaped(s) && Cleared(s, m, f) && |next| <= s.a.link.cfg.maxMessage
    ensures ValidInput(Submit(next, None)) && Again(Do(s, Ask(true, Submit(next, None))), m, f, next)
  {
    hide Inv, Step, Canonical, Codec.Encode, Codec.Decode, Do, Shape, LastHeard, After, DupLookup, Chunk, Transfer,
      Lossless.Sending;
    SubmitNode(s.a, next);
    AskLink(s, true, Submit(next, None));
    LastKept(s.a.link, Do(s, Ask(true, Submit(next, None))).a.link, HELLO_ACK);
  }

  // Frames of different messages under one key differ.
  lemma OtherSegment(f: Frame, m: seq<byte>, g: Frame, next: seq<byte>, key: Key)
    requires m != next && SegmentCount(|m|) == Some(1) && SegmentCount(|next|) == Some(1)
    requires Canonical(f) && Canonical(g) && f.payload == Chunk(Transfer(m), 0) && g.payload == Chunk(Transfer(next), 0)
    ensures Codec.Encode(f) != Codec.Encode(g)
  {
    hide Codec.Encode, Transfer, Canonical;
    Codec.EncodingIsInjective(f, g);
    assert Chunk(Transfer(m), 0) == Transfer(m) && Chunk(Transfer(next), 0) == Transfer(next);
    Integrity.TransferSplits(m);
    Integrity.TransferSplits(next);
  }

  // b answered the second message's frame with the receipt of the first.
  predicate Replayed(s: System, m: seq<byte>, next: seq<byte>)
    requires Shaped(s)
  {
    var (x, y, id) := (s.a.link, s.b.link, s.a.link.session.id);
    && x.tx.active && x.tx.message == 0 && x.tx.total == 1 && x.out == [] && s.a.sending == next
      && LastHeard(x, HELLO_ACK)
    && y.out == [Sent(Receipt1(id))] && y.delivery == Delivery(true, false, m) && s.b.staged == map[Key(id, 0) := m]
    && Inv(x) && Inv(y)
  }

  lemma Scene7(s: System, m: seq<byte>, f: Frame, next: seq<byte>)
    requires Shaped(s) && Again(s, m, f, next) && m != next && SegmentCount(|m|) == Some(1)
      && SegmentCount(|next|) == Some(1)
    ensures Replayed(Do(s, Carry(true)), m, next)
  {
    hide Inv, Step, Canonical, HeardFrame, Codec.Encode, Codec.Decode, HandleFrame, HandleData, Do, Shape, LastHeard,
      After, Lossless.Sending, SegmentCount, Lossless.Segment, DupLookup, Chunk, Transfer, DataFrame, Receipt1,
      HandleHello, HandleHelloAck, HandleAck, HandleBeacon;
    var (x, y) := (s.a.link, s.b.link);
    OneFrame(x, next);
    var g, key := DataFrame(x, 0), TxKey(x);
    SegmentFacts(g, next, key, 1);
    OtherSegment(f, m, g, next, key);
    CarryLinks(s, true, g);
    var noted := Noted(y, Codec.Encode(g));
    NotedInv(y, noted.heard);
    Handled(noted, g);
    Limits.ReceiptReplayed(noted, g, Receipt1(x.session.id));
    StagedBooks(s.b, g);
    LastKept(x, Do(s, Carry(true)).a.link, HELLO_ACK);
    assert [] + [Sent(Receipt1(x.session.id))] == [Sent(Receipt1(x.session.id))];
  }

  // a's transfer of `next` ended in KAL_OK, and all b ever staged is m.
  predicate Undelivered(s: System, m: seq<byte>, next: seq<byte>) {
    && s.a.sending == next && !s.a.link.tx.active && s.a.link.tx.status == Success
    && s.b.staged.Values == {m} && s.b.link.delivery == Delivery(true, false, m)
  }

  lemma Scene8(s: System, m: seq<byte>, next: seq<byte>)
    requires Shaped(s) && Replayed(s, m, next)
    ensures Undelivered(Do(s, Carry(false)), m, next)
  {
    hide Inv, Step, Canonical, HeardFrame, Codec.Encode, Codec.Decode, HandleFrame, HandleAck, Do, Shape, LastHeard,
      After, HandleHello, HandleHelloAck, HandleData, HandleBeacon;
    var (x, y, f) := (s.a.link, s.b.link, Receipt1(s.a.link.session.id));
    OtherKind(x, HELLO_ACK, f);
    CarryLinks(s, false, f);
    Handled(Noted(x, Codec.Encode(f)), f);
    Lossless.SenderFinishes(Noted(x, Codec.Encode(f)), f);
    TransmitNode(s.b);
    assert s.b.staged[Key(s.a.link.session.id, 0)] == m;
  }

  predicate ValidMoves(moves: seq<Move>) {
    forall m <- moves :: ValidMove(m)
  }

  lemma PerformNext(s: System, moves: seq<Move>, m: Move)
    requires Shaped(s) && ValidMoves(moves) && ValidMove(m)
    ensures Perform(s, []) == s && Perform(s, moves + [m]) == Do(Perform(s, moves), m)
  {
    hide Shape, Do;
    assert (moves + [m])[..|moves|] == moves;
  }

  // a proposes a session with message m, b answers, a confirms.
  function Meeting(m: seq<byte>, e: Entropy): (moves: seq<Move>)
    requires |e.challenge| == CHALLENGE_BYTES
    ensures ValidMoves(moves)
  {
    [] + [Ask(true, Submit(m, Some(e)))] + [Carry(true)] + [Carry(false)]
  }

  lemma Meets(cfgA: Config, windowA: nat, cfgB: Config, windowB: nat, m: seq<byte>, e: Entropy)
    requires ValidConfig(cfgA, windowA) && ValidConfig(cfgB, windowB)
    requires cfgA.role.Initiator? && cfgB.role.Responder? && cfgA.profile == cfgB.profile && |m| <= cfgA.maxMessage
    requires |e.challenge| == CHALLENGE_BYTES
    ensures var r := Perform(Start(cfgA, windowA, cfgB, windowB), Meeting(m, e));
            Met(r, m) && r.a.link.session.id == (if e.session == 0 then 1 else e.session)
  {
    hide Shape, Do, Perform, Proposed, Answered, Met, Start, Initial;
    var s, ask := Start(cfgA, windowA, cfgB, windowB), Ask(true, Submit(m, Some(e)));
    PerformNext(s, [], ask);
    PerformNext(s, [] + [ask], Carry(true));
    PerformNext(s, [] + [ask] + [Carry(true)], Carry(false));
    Scene1(cfgA, windowA, cfgB, windowB, m, e);
    var s1 := Do(s, ask);
    Scene2(s1, m);
    Scene3(Do(s1, Carry(true)), m);
  }

  // What every event keeps of a link.
  predicate Steady(l: Link, r: Link) {
    Inv(r) && r.cfg == l.cfg && MIN_WINDOW <= r.window <= l.window
  }

  lemma StepSteady(n: Node, i: Input)
    requires Inv(n.link) && ValidInput(i)
    ensures Steady(n.link, After(n, i).link)
  {
    hide Inv, Step, AirAfter, SendingAfter, SentAfter, StagedAfter, LatestAfter, DroppedAfter, CarriedAfter;
    InvShape(n.link);
    StepInv(n.link, i);
    Exhaustion.ConfigKept(n.link, i);
    Sessions.WindowNeverGrows(n.link, i);
  }

  lemma DoSteady(s: System, m: Move)
    requires Inv(s.a.link) && Inv(s.b.link) && Shaped(s) && ValidMove(m)
    ensures Steady(s.a.link, Do(s, m).a.link) && Steady(s.b.link, Do(s, m).b.link)
  {
    hide Inv, Shape, After, Canonical, Codec.Encode;
    SteadySelf(s.a.link);
    SteadySelf(s.b.link);
    match m
    case Ask(first, i) => StepSteady(if first then s.a else s.b, i);
    case Carry(first) =>
      var (x, y) := (if first then s.a else s.b, if first then s.b else s.a);
      StepSteady(x, Transmit);
      if Uttered(x.link).Some? { StepSteady(y, Receive(Codec.Encode(Uttered(x.link).value))); }
  }

  lemma SteadySelf(l: Link)
    requires Inv(l)
    ensures Steady(l, l)
  {
    hide TxInv, RxInv, SessionInv, RowsInv;
  }

  lemma {:induction false} PerformSteady(s: System, moves: seq<Move>)
    requires Inv(s.a.link) && Inv(s.b.link) && Shaped(s) && ValidMoves(moves)
    ensures Steady(s.a.link, Perform(s, moves).a.link) && Steady(s.b.link, Perform(s, moves).b.link)
    decreases |moves|
  {
    hide Inv, Shape, Do;
    SteadySelf(s.a.link);
    SteadySelf(s.b.link);
    if moves != [] {
      var n := |moves| - 1;
      PerformSteady(s, moves[..n]);
      DoSteady(Perform(s, moves[..n]), moves[n]);
    }
  }

  // The first message is delivered and its receipt lost; a cancels, sends the next message under the same id, and hears
  // the receipt the other side remembers.
  function Reuse(m: seq<byte>, e: Entropy, next: seq<byte>): (moves: seq<Move>)
    requires |e.challenge| == CHALLENGE_BYTES
    ensures ValidMoves(moves)
  {
    Meeting(m, e) + [Carry(true)] + [Ask(false, Transmit)] + [Ask(true, Abort(0))] + [Ask(true, Transmit)]
      + [Ask(true, Submit(next, None))] + [Carry(true)] + [Carry(false)]
  }

  /** A run of two links that loses a message: of two one-segment messages sent under one id the second ends in KAL_OK
      at the sender, and all the receiver ever staged is the first. */
  lemma ReusedIdEndsInSuccess(cfgA: Config, windowA: nat, cfgB: Config, windowB: nat, m: seq<byte>, e: Entropy,
      next: seq<byte>)
    requires ValidConfig(cfgA, windowA) && ValidConfig(cfgB, windowB) && |e.challenge| == CHALLENGE_BYTES
    requires cfgA.role.Initiator? && cfgB.role.Responder? && cfgA.profile == cfgB.profile
    requires |m| <= cfgA.maxMessage && |m| <= cfgB.maxMessage && |next| <= cfgA.maxMessage
    requires m != next && SegmentCount(|m|) == Some(1) && SegmentCount(|next|) == Some(1)
    ensures Undelivered(Perform(Start(cfgA, windowA, cfgB, windowB), Reuse(m, e, next)), m, next)
  {
    hide Shape, Inv, Do, Perform, Meeting, Met, Given, Cleared, Again, Replayed, Undelivered, Initial, DataFrame,
      SegmentCount;
    var s0, ms := Start(cfgA, windowA, cfgB, windowB), Meeting(m, e);
    FreshBlank(cfgA, windowA);
    FreshBlank(cfgB, windowB);
    Meets(cfgA, windowA, cfgB, windowB, m, e);
    PerformSteady(s0, ms);
    var s := Perform(s0, ms);
    Scene4(s, m);
    PerformNext(s0, ms, Carry(true));
    ms := ms + [Carry(true)];
    var f, t := DataFrame(s.a.link, 0), Do(s, Carry(true));
    Scene5(t, m, f);
    PerformNext(s0, ms, Ask(false, Transmit));
    PerformNext(s0, ms + [Ask(false, Transmit)], Ask(true, Abort(0)));
    PerformNext(s0, ms + [Ask(false, Transmit)] + [Ask(true, Abort(0))], Ask(true, Transmit));
    ms := ms + [Ask(false, Transmit)] + [Ask(true, Abort(0))] + [Ask(true, Transmit)];
    var u := Perform(s0, ms);
    Scene6(u, m, f, next);
    PerformNext(s0, ms, Ask(true, Submit(next, None)));
    ms := ms + [Ask(true, Submit(next, None))];
    Scene7(Perform(s0, ms), m, f, next);
    PerformNext(s0, ms, Carry(true));
    ms := ms + [Carry(true)];
    Scene8(Perform(s0, ms), m, next);
    PerformNext(s0, ms, Carry(false));
  }

  // ------------------------------------------------------------ a replaced session

  // Books with no key of another session.
  predicate OnlyOf(n: Node, id: u32) {
    (forall k :: k in n.staged ==> k.session == id) && (forall k :: k in n.dropped ==> k.session == id)
  }

  lemma OnlyOfKept(n: Node, i: Input, id: u32)
    requires Inv(n.link) && ValidInput(i) && OnlyOf(n, id) && (n.link.session.open ==> n.link.session.id == id)
    ensures OnlyOf(After(n, i), id)
  {
    hide Inv, Step, AirAfter, SendingAfter, SentAfter, LatestAfter, CarriedAfter, Drops, Stages, StagedKey;
    NewKeys(n.link, i);
  }

  // What an event stages or gives up belongs to the open session.
  lemma NewKeys(l: Link, i: Input)
    requires Inv(l) && ValidInput(i)
    ensures Drops(l, i) ==> l.session.open && RxKey(l.rx).session == l.session.id
    ensures Stages(l, i) ==> l.session.open && StagedKey(l, i).session == l.session.id
  {
    hide TxInv, RxInv, RowsInv, Step, Discards, DataDrops, Remembers, SameSegments, OneMore, HeardFrame, Canonical;
    if HearsKind(l, i, DATA) {
      StepIsHear(l, i);
      HearData(l, i.raw);
    }
  }

  // Every event of a move at a keeps its books to the session it has open.
  lemma DoOnlyOf(s: System, m: Move, id: u32)
    requires Shaped(s) && Inv(s.a.link) && ValidMove(m) && OnlyOf(s.a, id)
      && (s.a.link.session.open ==> s.a.link.session.id == id)
    ensures OnlyOf(Do(s, m).a, id)
  {
    hide Inv, Shape, After, Canonical, Codec.Encode, OnlyOf;
    match m
    case Ask(first, i) => if first { OnlyOfKept(s.a, i, id); }
    case Carry(first) =>
      if first {
        OnlyOfKept(s.a, Transmit, id);
      } else if Uttered(s.b.link).Some? {
        OnlyOfKept(s.a, Receive(Codec.Encode(Uttered(s.b.link).value)), id);
      }
  }

  // The transfer of message m from b, which a has not heard of, in windows of one.
  function Single(y: Link, m: seq<byte>): Lossless.Task
    requires |m| <= MAX_MESSAGE_BYTES
  {
    Lossless.Task(m, TxKey(y), 1, SegmentCount(|m|).value)
  }

  // b has the first segment of m in its ring; a is open and idle but for its own transfer.
  predicate Offered(s: System, m: seq<byte>)
    requires Shaped(s)
  {
    hide Shape, Inv, Blank, LastHeard, Lossless.Sending;
    var (x, y) := (s.a.link, s.b.link);
    && x.session.open && y.session.id == x.session.id && x.out == [] && x.window == 1 && y.window == 1
    && LastHeard(x, HELLO_ACK) && LastHeard(y, HELLO) && y.session.open
    && Blank(s.a) && Lossless.Sending(y, m, 0)
  }

  lemma BlankKept(n: Node, r: Node)
    requires Blank(n) && Inv(r.link)
    requires r.link.rx == n.link.rx || !r.link.rx.active
    requires r.link.dup == n.link.dup && r.link.delivery == n.link.delivery
    requires r.staged == n.staged && r.dropped == n.dropped
    ensures Blank(r)
  {
    hide Inv, NoDuplicates;
  }

  lemma Scene9(s: System, m0: seq<byte>, m: seq<byte>)
    requires Shaped(s) && Met(s, m0) && SegmentCount(|m0|) == Some(1) && s.a.link.window == 1
      && |m| <= s.b.link.cfg.maxMessage
    ensures ValidInput(Submit(m, None))
    ensures var r := Do(Do(s, Ask(true, Transmit)), Ask(false, Submit(m, None)));
            Offered(r, m) && r.a.link.session.id == s.a.link.session.id
  {
    hide Inv, Step, Canonical, Codec.Encode, Codec.Decode, Do, Shape, LastHeard, After, Lossless.Sending, SegmentCount,
      DataFrame, Lossless.Segment;
    OneFrame(s.a.link, m0);
    AskLink(s, true, Transmit);
    TransmitNode(s.a);
    assert s.a.link.out[1..] == [];
    var t := Do(s, Ask(true, Transmit));
    BlankKept(s.a, t.a);
    SubmitNode(s.b, m);
    AskLink(t, false, Submit(m, None));
    var r := Do(t, Ask(false, Submit(m, None)));
    LastKept(s.a.link, r.a.link, HELLO_ACK);
    LastKept(s.b.link, r.b.link, HELLO);
  }

  // n has part of the message of key k, which it has not staged.
  predicate Holds(n: Node, k: Key) {
    n.link.rx.active && RxKey(n.link.rx) == k && k !in n.staged
  }

  // The first segment arrived at a, which has an acknowledgement of it in its ring.
  predicate Taken(s: System, m: seq<byte>)
    requires Shaped(s) && |m| <= MAX_MESSAGE_BYTES
  {
    hide Shape, Inv, OnlyOf, LastHeard, Lossless.Poised, Canonical;
    var (x, y, t) := (s.a.link, s.b.link, Single(s.b.link, m));
    && 1 < t.total && t.key.session == x.session.id && x.session.open
    && x.out == [Sent(Lossless.Reply(t, 1))] && Canonical(Lossless.Reply(t, 1))
    && y.out == [] && LastHeard(y, HELLO) && LastHeard(x, DATA) && Inv(x) && OnlyOf(s.a, x.session.id)
    && Holds(s.a, t.key) && Lossless.Poised(y, t, 0)
  }

  lemma SendingPoised(l: Link, y: Link, m: seq<byte>)
    requires Shape(l) && Shape(y) && Inv(y) && l.window == 1 && LastHeard(l, HELLO) && y == l.(out := [])
    requires Lossless.Sending(l, m, 0) && |m| <= MAX_MESSAGE_BYTES
    ensures Lossless.Poised(y, Single(y, m), 0)
  {
    hide Inv, Chunk, Transfer, SegmentCount, Lossless.Frames, Codec.Decode;
    Lossless.OnWindowKept(l, y, m, 0);
    Lossless.SenderTotal(l, m);
  }

  lemma Scene10(s: System, m: seq<byte>)
    requires Shaped(s) && Offered(s, m) && |m| <= s.a.link.cfg.maxMessage && |m| <= MAX_MESSAGE_BYTES
      && 1 < SegmentCount(|m|).value
    ensures var r := Do(s, Carry(false)); Taken(r, m) && r.a.link.session.id == s.a.link.session.id
  {
    hide Inv, Step, Canonical, HeardFrame, Codec.Encode, Codec.Decode, HandleFrame, HandleData, Do, Shape, LastHeard,
      After, Lossless.Sending, SegmentCount, Lossless.Segment, Chunk, Transfer, DataFrame, Lossless.Poised, HandleHello,
      HandleHelloAck, HandleAck, HandleBeacon;
    var (x, y) := (s.a.link, s.b.link);
    OneFrame(y, m);
    var f, key, t := DataFrame(y, 0), TxKey(y), Single(y, m);
    SegmentFacts(f, m, key, t.total);
    OtherKind(x, HELLO_ACK, f);
    CarryLinks(s, false, f);
    Lossless.HearsSegment(x, f, t, 0, 0, 0);
    Handled(Noted(x, Codec.Encode(f)), f);
    Exhaustion.DataSession(Noted(x, Codec.Encode(f)), f);
    Lossless.HeardKept(Noted(x, Codec.Encode(f)), f);
    NotedKind(x, f);
    LastKept(Noted(x, Codec.Encode(f)), Do(s, Carry(false)).a.link, DATA);
    TookFirst(Step(x, Receive(Codec.Encode(f))).0, t);
    NotYetStaged(s.a, f);
    DoOnlyOf(s, Carry(false), x.session.id);
    SendingPoised(y, Do(s, Carry(false)).b.link, m);
    LastKept(y, Do(s, Carry(false)).b.link, HELLO);
    Lossless.ReplyCanonical(t, 1);
  }

  lemma TookFirst(x: Link, t: Lossless.Task)
    requires Shape(x) && 1 < t.total && t.window == 1 && Lossless.Took(x, t, 0, 1)
    ensures t.total <= MAX_SEGMENTS && x.out == [Sent(Lossless.Reply(t, 1))] && x.rx.active && RxKey(x.rx) == t.key
  {
    hide TxInv, RxInv, RowsInv, Lossless.Older, Lossless.Reply, Chunk, Transfer;
  }

  // While the reassembly goes on nothing is staged.
  lemma NotYetStaged(n: Node, f: Frame)
    requires Inv(n.link) && f.kind == DATA && Canonical(f) && HeardFrame(n.link, Codec.Encode(f)) == Some(f)
    requires Step(n.link, Receive(Codec.Encode(f))).0.rx.active
    ensures After(n, Receive(Codec.Encode(f))).staged == n.staged
  {
    hide TxInv, RxInv, SessionInv, RowsInv, Shape, Step, HeardFrame, Canonical, Codec.Encode, AirAfter, SendingAfter,
      SentAfter, LatestAfter, DroppedAfter, CarriedAfter, Remembers, SameSegments, OneMore;
    StepIsHear(n.link, Receive(Codec.Encode(f)));
    HearData(n.link, Codec.Encode(f));
  }

  // b holds the first segment acknowledged, and a has it.
  predicate Half(s: System) {
    var (x, y) := (s.a.link, s.b.link);
    && x.session.open && x.session.id == y.session.id && x.out == []
    && y.session.open && y.tx.active && |y.tx.acked| == MAX_SEGMENTS && y.tx.acked[0] && LastHeard(y, ACK)
    && Inv(x) && Inv(y) && OnlyOf(s.a, x.session.id) && LastHeard(x, DATA) && Holds(s.a, TxKey(y))
  }

  lemma AckKeepsHeard(l: Link, f: Frame)
    requires Shape(l)
    ensures HandleAck(l, f).0.heard == l.heard
  {
    hide StartOrResume, MarkAcked, Recompute;
    if l.tx.active {
      ResumeFrame(l.(tx := MarkAcked(l.tx, f), timer := Recompute(l.timer, l.cfg.airtime, l.window)), false);
    }
  }

  lemma TurnedFacts(y: Link, t: Lossless.Task)
    requires Shape(y) && Lossless.Turned(y, t, 1)
    ensures Inv(y) && y.tx.active && y.session.open && |y.tx.acked| == MAX_SEGMENTS && y.tx.acked[0]
      && TxKey(y) == t.key
  {
    hide Inv, Lossless.Frames, Lossless.Older, Chunk, Transfer, SegmentCount;
  }

  lemma Scene11(s: System, m: seq<byte>)
    requires Shaped(s) && |m| <= MAX_MESSAGE_BYTES && Taken(s, m)
    ensures var r := Do(s, Carry(true)); Half(r) && r.a.link.session.id == s.a.link.session.id
  {
    hide Inv, Step, Canonical, HeardFrame, Codec.Encode, Codec.Decode, HandleFrame, HandleAck, Do, Shape, LastHeard,
      After, SegmentCount, Lossless.Poised, Lossless.Turned, OnlyOf, HandleHello, HandleHelloAck, HandleData,
      HandleBeacon;
    var (x, y, t) := (s.a.link, s.b.link, Single(s.b.link, m));
    var f := Lossless.Reply(t, 1);
    Lossless.PoisedInv(y, t, 0);
    Lossless.ReplyCanonical(t, 1);
    OtherKind(y, HELLO, f);
    CarryLinks(s, true, f);
    Lossless.HearsReply(y, f, t, 0, 1);
    TurnedFacts(Step(y, Receive(Codec.Encode(f))).0, t);
    Handled(Noted(y, Codec.Encode(f)), f);
    AckKeepsHeard(Noted(y, Codec.Encode(f)), f);
    DoOnlyOf(s, Carry(true), x.session.id);
    TransmitNode(s.a);
    LastKept(x, Do(s, Carry(true)).a.link, DATA);
    NotedKind(y, f);
    LastKept(Noted(y, Codec.Encode(f)), Do(s, Carry(true)).b.link, ACK);
  }

  // a's data is lost; b sends the first segment of its message and hears it acknowledged.
  function Midway(m: seq<byte>): (moves: seq<Move>)
    ensures ValidMoves(moves)
  {
    [] + [Ask(true, Transmit)] + [Ask(false, Submit(m, None))] + [Carry(false)] + [Carry(true)]
  }

  lemma Midways(s: System, m0: seq<byte>, m: seq<byte>)
    requires Shaped(s) && Met(s, m0) && SegmentCount(|m0|) == Some(1) && s.a.link.window == 1
    requires |m| <= s.a.link.cfg.maxMessage && |m| <= s.b.link.cfg.maxMessage && SegmentCount(|m|) != Some(1)
    requires |m| <= MAX_MESSAGE_BYTES && Inv(s.a.link) && Inv(s.b.link)
    ensures var r := Perform(s, Midway(m));
            Half(r) && r.a.link.session.id == s.a.link.session.id && s.b.air <= r.b.air
  {
    hide Shape, Inv, Do, Perform, Met, Offered, Taken, Half, SegmentCount;
    Scene9(s, m0, m);
    PerformNext(s, [], Ask(true, Transmit));
    PerformNext(s, [] + [Ask(true, Transmit)], Ask(false, Submit(m, None)));
    var ms := [] + [Ask(true, Transmit)] + [Ask(false, Submit(m, None))];
    DoAir(s, Ask(true, Transmit));
    DoAir(Do(s, Ask(true, Transmit)), Ask(false, Submit(m, None)));
    PerformSteady(s, ms);
    Scene10(Perform(s, ms), m);
    PerformNext(s, ms, Carry(false));
    DoAir(Perform(s, ms), Carry(false));
    ms := ms + [Carry(false)];
    Scene11(Perform(s, ms), m);
    PerformNext(s, ms, Carry(true));
    DoAir(Perform(s, ms), Carry(true));
  }

  // What is on air stays on air.
  lemma DoAir(s: System, m: Move)
    requires Shaped(s) && ValidMove(m)
    ensures s.b.air <= Do(s, m).b.air
  {
    hide Shape, Step, Canonical, Codec.Encode, SendingAfter, SentAfter, StagedAfter, LatestAfter, DroppedAfter,
      CarriedAfter;
  }

  lemma {:induction false} PerformSplits(s: System, a: seq<Move>, b: seq<Move>)
    requires Shaped(s) && ValidMoves(a) && ValidMoves(b)
    ensures Perform(s, a + b) == Perform(Perform(s, a), b)
    decreases |b|
  {
    hide Shape, Do;
    if b == [] {
      assert a + b == a;
    } else {
      assert (a + b)[..|a + b| - 1] == a + b[..|b| - 1];
      PerformSplits(s, a, b[..|b| - 1]);
    }
  }

  lemma RestartNode(n: Node)
    requires Inv(n.link)
    ensures var r := After(n, Restart).link;
      Inv(r) && !r.session.open && !r.session.pending && !r.tx.active && !r.rx.active && r.out == [] && r.heard.None?
        && r.cfg == n.link.cfg
  {
    hide Inv, Step, AirAfter, SendingAfter, SentAfter, StagedAfter, LatestAfter, DroppedAfter, CarriedAfter;
    InvShape(n.link);
    StepInv(n.link, Restart);
    RestartStep(n.link);
  }

  lemma RestartStep(l: Link)
    requires Shape(l)
    ensures var r := Step(l, Restart).0;
      && !r.session.open && !r.session.pending && !r.tx.active && !r.rx.active && r.out == [] && r.heard.None?
        && r.cfg == l.cfg
  {
    hide Shape, Recompute, NoDuplicates, NoneSet, NoSegments, Send, Beacon, Cancel, AdvanceTime, Hear, TakeRow, Collect;
  }

  // a proposes the session id; what it staged or gave up belongs to the session b has open.
  predicate Renewed(s: System, id: u32) {
    var (x, y) := (s.a.link, s.b.link);
    && Inv(x) && x.session.pending && x.session.id == id && !x.rx.active && OnlyOf(s.a, y.session.id)
    && x.out == [Sent(HelloFrame(x))] && Canonical(HelloFrame(x))
    && y.session.open && y.tx.active && |y.tx.acked| == MAX_SEGMENTS && y.tx.acked[0] && LastHeard(y, ACK) && Inv(y)
  }

  lemma Scene12(s: System, m: seq<byte>, e: Entropy)
    requires Shaped(s) && Half(s)
    requires s.a.link.cfg.role.Initiator? && |m| <= s.a.link.cfg.maxMessage && |e.challenge| == CHALLENGE_BYTES
    ensures ValidInput(Submit(m, Some(e)))
    ensures var r := Do(Do(s, Ask(true, Restart)), Ask(true, Submit(m, Some(e))));
            Renewed(r, if e.session == 0 then 1 else e.session) && r.b.link == s.b.link
  {
    hide Inv, Step, Canonical, Codec.Encode, Codec.Decode, Do, Shape, LastHeard, After, Runs.Waiting, OnlyOf,
      HelloFrame;
    var id := s.a.link.session.id;
    RestartNode(s.a);
    AskLink(s, true, Restart);
    OnlyOfKept(s.a, Restart, id);
    var t := Do(s, Ask(true, Restart));
    SubmitProposes(t.a, m, e);
    OnlyOfKept(t.a, Submit(m, Some(e)), id);
    AskLink(t, true, Submit(m, Some(e)));
  }

  // b holds a segment acknowledged of a message of which a has nothing under b's key: not stored, not staged, not even
  // given up.
  predicate Stranded(s: System) {
    s.b.link.tx.active && 0 < |s.b.link.tx.acked| && s.b.link.tx.acked[0] && !Concerns(s.a, TxKey(s.b.link))
  }

  lemma Scene13(s: System, id: u32)
    requires Shaped(s) && Renewed(s, id) && id != s.b.link.session.id
    requires s.b.link.cfg.role.Responder? && s.a.link.cfg.profile == s.b.link.cfg.profile
    ensures Stranded(Do(s, Carry(true)))
  {
    hide Inv, Step, Canonical, HeardFrame, Codec.Encode, Codec.Decode, HandleFrame, Do, Shape, LastHeard, After,
      CapabilityProfile, Hear;
    var (x, y, f) := (s.a.link, s.b.link, HelloFrame(s.a.link));
    Runs.HelloOffer(x, y);
    OtherKind(y, ACK, f);
    CarryLinks(s, true, f);
    if x.session.open { Limits.PendingNotOpen(x); }
    OnlyOfKept(s.a, Transmit, y.session.id);
    var a, i := Do(s, Carry(true)).a, Receive(Codec.Encode(f));
    Limits.ReplacedSessionKeepsAcks(s.b, a, i);
    Limits.HearReplaces(y, Codec.Encode(f));
    StepIsHear(y, i);
  }

  // b sends the first segment of its message and hears it acknowledged; a is reset and proposes another session.
  function Strand(m0: seq<byte>, e: Entropy, m: seq<byte>, anew: Entropy): (moves: seq<Move>)
    requires |e.challenge| == |anew.challenge| == CHALLENGE_BYTES
    ensures ValidMoves(moves)
  {
    Meeting(m0, e) + Midway(m) + [Ask(true, Restart)] + [Ask(true, Submit(m0, Some(anew)))] + [Carry(true)]
  }

  /** A run of two links that ends with an acknowledgement nobody backs: under the key of the session that replaced the
      old one, b holds a segment acknowledged that a neither stored nor staged nor gave up. */
  lemma ReplacementStrandsAck(cfgA: Config, cfgB: Config, windowB: nat, m0: seq<byte>, e: Entropy, m: seq<byte>,
      anew: Entropy)
    requires ValidConfig(cfgA, 1) && ValidConfig(cfgB, windowB) && |e.challenge| == |anew.challenge| == CHALLENGE_BYTES
    requires cfgA.role.Initiator? && cfgB.role.Responder? && cfgA.profile == cfgB.profile
    requires e.session != 0 && anew.session != 0 && e.session != anew.session
    requires |m0| <= cfgA.maxMessage && SegmentCount(|m0|) == Some(1)
    requires |m| <= cfgA.maxMessage && |m| <= cfgB.maxMessage && SegmentCount(|m|) != Some(1)
    ensures Stranded(Perform(Start(cfgA, 1, cfgB, windowB), Strand(m0, e, m, anew)))
  {
    hide Shape, Inv, Do, Perform, Meeting, Midway, Met, Renewed, Stranded, Initial, SegmentCount, Start;
    var s0, ms := Start(cfgA, 1, cfgB, windowB), Meeting(m0, e);
    StartInv(cfgA, 1, cfgB, windowB);
    Meets(cfgA, 1, cfgB, windowB, m0, e);
    PerformSteady(s0, ms);
    Midways(Perform(s0, ms), m0, m);
    PerformSplits(s0, ms, Midway(m));
    ms := ms + Midway(m);
    PerformSteady(s0, ms);
    Scene12(Perform(s0, ms), m0, anew);
    PerformNext(s0, ms, Ask(true, Restart));
    PerformNext(s0, ms + [Ask(true, Restart)], Ask(true, Submit(m0, Some(anew))));
    ms := ms + [Ask(true, Restart)] + [Ask(true, Submit(m0, Some(anew)))];
    PerformSteady(s0, ms);
    Scene13(Perform(s0, ms), anew.session);
    PerformNext(s0, ms, Carry(true));
  }

  // ------------------------------------------------------------ a stale CANCEL

  // b cancels with nothing under way; its CANCEL goes on air, and a does not hear it yet.
  lemma Cancels(s: System, m: seq<byte>) returns (f: Frame)
    requires Shaped(s) && Met(s, m)
    ensures f.kind == CANCEL && Canonical(f) && f.session == s.a.link.session.id
    ensures var r := Do(Do(s, Ask(false, Abort(0))), Ask(false, Transmit)); Met(r, m) && Sent(f) in r.b.air
    ensures var r := Do(Do(s, Ask(false, Abort(0))), Ask(false, Transmit)); r.a == s.a && r.b.link.cfg == s.b.link.cfg
  {
    hide Inv, Step, Canonical, Do, Shape, LastHeard, After, Lossless.Sending;
    AskLink(s, false, Abort(0));
    AbortNode(s.b);
    BookKept(s.b, Abort(0));
    BlankKept(s.b, After(s.b, Abort(0)));
    var t := Do(s, Ask(false, Abort(0)));
    f := CancelFrame(s.b.link, 0);
    CancelFrameCanonical(s.b.link, 0);
    AskLink(t, false, Transmit);
    TransmitNode(t.b);
    var r := Do(t, Ask(false, Transmit));
    BlankKept(t.b, r.b);
    assert t.b.link.out[1..] == [];
    LastKept(s.b.link, r.b.link, HELLO);
  }

  // b holds a segment acknowledged of a message of which a has nothing and which it has not staged.
  predicate Forgotten(s: System) {
    && s.b.link.tx.active && 0 < |s.b.link.tx.acked| && s.b.link.tx.acked[0]
    && !s.a.link.rx.active && TxKey(s.b.link) !in s.a.staged
  }

  lemma HearsStale(s: System, f: Frame)
    requires Shaped(s) && Half(s) && f.kind == CANCEL && Canonical(f) && f.session == s.a.link.session.id
    ensures Forgotten(Do(s, Ask(true, Receive(Codec.Encode(f)))))
  {
    hide Inv, Step, Canonical, Codec.Encode, Codec.Decode, Do, Shape, LastHeard, After, OnlyOf;
    OtherKind(s.a.link, DATA, f);
    Codec.DecodeEncode(f);
    AskLink(s, true, Receive(Codec.Encode(f)));
    Limits.StaleCancelDrops(s.a, Receive(Codec.Encode(f)));
  }

  // b cancels, then sends a segment that is acknowledged; a hears the old CANCEL.
  function Stale(m0: seq<byte>, e: Entropy, m: seq<byte>, raw: Codec.Raw): (moves: seq<Move>)
    requires |e.challenge| == CHALLENGE_BYTES
    ensures ValidMoves(moves)
  {
    Meeting(m0, e) + [Ask(false, Abort(0))] + [Ask(false, Transmit)] + Midway(m) + [Ask(true, Receive(raw))]
  }

  /** A run of two links in which a frame b did send, heard late, leaves an acknowledged segment stored by nobody: a
      CANCEL from before the transfer drops what a acknowledged of it. */
  lemma CancelStrandsAck(cfgA: Config, cfgB: Config, windowB: nat, m0: seq<byte>, e: Entropy, m: seq<byte>)
    returns (f: Frame)
    requires ValidConfig(cfgA, 1) && ValidConfig(cfgB, windowB) && |e.challenge| == CHALLENGE_BYTES
    requires cfgA.role.Initiator? && cfgB.role.Responder? && cfgA.profile == cfgB.profile
    requires |m0| <= cfgA.maxMessage && SegmentCount(|m0|) == Some(1)
    requires |m| <= cfgA.maxMessage && |m| <= cfgB.maxMessage && SegmentCount(|m|) != Some(1)
    ensures Canonical(f)
    ensures var r := Perform(Start(cfgA, 1, cfgB, windowB), Stale(m0, e, m, Codec.Encode(f)));
            Sent(f) in r.b.air && Forgotten(r)
  {
    hide Shape, Inv, Do, Perform, Meeting, Midway, Met, Half, Forgotten, Initial, SegmentCount, Start, Canonical,
      Codec.Encode;
    var s0, ms := Start(cfgA, 1, cfgB, windowB), Meeting(m0, e);
    StartInv(cfgA, 1, cfgB, windowB);
    Meets(cfgA, 1, cfgB, windowB, m0, e);
    f := Cancels(Perform(s0, ms), m0);
    PerformNext(s0, ms, Ask(false, Abort(0)));
    PerformNext(s0, ms + [Ask(false, Abort(0))], Ask(false, Transmit));
    ms := ms + [Ask(false, Abort(0))] + [Ask(false, Transmit)];
    PerformSteady(s0, ms);
    Midways(Perform(s0, ms), m0, m);
    PerformSplits(s0, ms, Midway(m));
    ms := ms + Midway(m);
    HearsStale(Perform(s0, ms), f);
    PerformNext(s0, ms, Ask(true, Receive(Codec.Encode(f))));
    DoAir(Perform(s0, ms), Ask(true, Receive(Codec.Encode(f))));
  }

  lemma StartInv(cfgA: Config, windowA: nat, cfgB: Config, windowB: nat)
    requires ValidConfig(cfgA, windowA) && ValidConfig(cfgB, windowB)
    ensures var s := Start(cfgA, windowA, cfgB, windowB);
      && Inv(s.a.link) && Inv(s.b.link) && s.a.link.cfg == cfgA && s.b.link.cfg == cfgB
      && s.a.link.window == windowA && s.b.link.window == windowB
  {
    hide Inv;
    FreshBlank(cfgA, windowA);
    FreshBlank(cfgB, windowB);
  }
}
