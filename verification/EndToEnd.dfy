/**
  Runs of two links over the channel: end-to-end agreement, no success without staging, sound acknowledgements.
 */
module EndToEnd {
  import opened Wire
  import opened LinkSpec
  import opened Reachable
  import opened Invariant
  import opened Effects
  import opened Receiving
  import opened Channel
  import opened ChannelSender
  import opened ChannelReceiver
  import Codec
  import DupCache

  // ------------------------------------------------------------ runs

  datatype System = System(a: Node, b: Node)

  /** One event of one of the two links. */
  datatype Turn = Turn(first: bool, input: Input)

  predicate Shaped(s: System) {
    Shape(s.a.link) && Shape(s.b.link)
  }

  predicate Valid(turns: seq<Turn>) {
    forall t <- turns :: ValidInput(t.input)
  }

  function Act(s: System, t: Turn): (r: System)
    requires Shaped(s) && ValidInput(t.input)
    ensures Shaped(r)
  {
    if t.first then System(After(s.a, t.input), s.b) else System(s.a, After(s.b, t.input))
  }

  function Play(s: System, turns: seq<Turn>): (r: System)
    requires Shaped(s) && Valid(turns)
    ensures Shaped(r)
    decreases |turns|
  {
    if turns == [] then s else Act(Play(s, turns[..|turns| - 1]), turns[|turns| - 1])
  }

  predicate Allowed(s: System, t: Turn)
    requires Shaped(s)
  {
    if t.first then Admissible(s.a, s.b, t.input) else Admissible(s.b, s.a, t.input)
  }

  // Every event of the run is admissible where it happens.
  predicate Orderly(s: System, turns: seq<Turn>)
    requires Shaped(s) && Valid(turns)
    decreases |turns|
  {
    turns == [] || (Orderly(s, turns[..|turns| - 1]) && Allowed(Play(s, turns[..|turns| - 1]), turns[|turns| - 1]))
  }

  function Start(cfgA: Config, windowA: nat, cfgB: Config, windowB: nat): (s: System)
    requires ValidConfig(cfgA, windowA) && ValidConfig(cfgB, windowB)
    ensures Shaped(s)
  {
    System(Fresh(cfgA, windowA), Fresh(cfgB, windowB))
  }

  // ------------------------------------------------------------ the invariant of the system

  ghost predicate Safe(s: System) {
    Flow(s.a, s.b) && Flow(s.b, s.a)
  }

  lemma FreshSender(cfg: Config, window: nat)
    requires ValidConfig(cfg, window)
    ensures SenderGood(Fresh(cfg, window))
  {
    hide Inv, FrameGood, SegmentOf, Unstarted, Shape;
    InitialInv(cfg, window);
    InvShape(Initial(cfg, window));
  }

  lemma FreshReceiver(cfg: Config, window: nat)
    requires ValidConfig(cfg, window)
    ensures ReceiverGood(map[], Fresh(cfg, window))
  {
    hide Inv, AckGood, SegmentOf, ReceiptOk, Shape;
    InitialInv(cfg, window);
    InvShape(Initial(cfg, window));
  }

  lemma FreshFlow(x: Node, y: Node, cfgX: Config, windowX: nat, cfgY: Config, windowY: nat)
    requires ValidConfig(cfgX, windowX) && ValidConfig(cfgY, windowY)
    requires x == Fresh(cfgX, windowX) && y == Fresh(cfgY, windowY)
    ensures Flow(x, y)
  {
    hide SenderGood, ReceiverGood, Recompute, NoneSet, NoSegments, ZeroChallenge, NoDuplicates;
    FreshSender(cfgX, windowX);
    FreshReceiver(cfgY, windowY);
  }

  // One event at x, seen as sender and as receiver.
  lemma FlowAfter(x: Node, y: Node, i: Input)
    requires Flow(x, y) && Flow(y, x) && Admissible(x, y, i)
    ensures Flow(After(x, i), y) && Flow(y, After(x, i))
  {
    hide TxInv, RxInv, RowsInv, SessionInv, SpeechGood, TransferGood, SessionGood, RepliesGood, ReassemblyGood,
      StagingGood, AcksBacked, After, Honest, NewId, OneMessagePerKey;
    FlowShape(x, y);
    SenderGoodAfter(x, y, i);
    SentGrowsAfter(x, y, i);
    ReceiverKept(x.sent, After(x, i).sent, y);
    AcksBackedAfter(x, y, i);
    ReceiverGoodAfter(y, x, i);
    AcksStayBacked(y, x, i);
  }

  lemma FlowShape(x: Node, y: Node)
    requires Flow(x, y)
    ensures Shape(x.link) && Shape(y.link)
  {
    hide TxInv, RxInv, RowsInv, SessionInv, SpeechGood, TransferGood, SessionGood, RepliesGood, ReassemblyGood,
      StagingGood, AcksBacked;
  }

  lemma SentGrowsAfter(x: Node, y: Node, i: Input)
    requires Shape(x.link) && Admissible(x, y, i)
    ensures forall k :: k in x.sent ==> k in After(x, i).sent && After(x, i).sent[k] == x.sent[k]
  {
    hide Step, AirAfter, StagedAfter, LatestAfter, DroppedAfter, CarriedAfter, SentAfter, Shape, OneMessagePerKey,
      Honest, NewId;
    SentGrows(x, y, i);
  }

  /** Every orderly run keeps both flows safe. */
  lemma {:induction false} EveryRunIsSafe(cfgA: Config, windowA: nat, cfgB: Config, windowB: nat, turns: seq<Turn>)
    requires ValidConfig(cfgA, windowA) && ValidConfig(cfgB, windowB)
    requires Valid(turns) && Orderly(Start(cfgA, windowA, cfgB, windowB), turns)
    ensures Safe(Play(Start(cfgA, windowA, cfgB, windowB), turns))
    decreases |turns|
  {
    hide Flow, After, Admissible, Fresh;
    var s0 := Start(cfgA, windowA, cfgB, windowB);
    if turns == [] {
      FreshFlow(s0.a, s0.b, cfgA, windowA, cfgB, windowB);
      FreshFlow(s0.b, s0.a, cfgB, windowB, cfgA, windowA);
    } else {
      var n := |turns| - 1;
      EveryRunIsSafe(cfgA, windowA, cfgB, windowB, turns[..n]);
      var s, t := Play(s0, turns[..n]), turns[n];
      if t.first { FlowAfter(s.a, s.b, t.input); } else { FlowAfter(s.b, s.a, t.input); }
    }
  }

  // ------------------------------------------------------------ end-to-end agreement

  // What y staged or is about to hand over is what x was given to send.
  ghost predicate Agrees(x: Node, y: Node) {
    && (forall k :: k in y.staged ==> k in x.sent && y.staged[k] == x.sent[k])
    && (y.link.delivery.ready ==> y.latest in y.staged && y.link.delivery.message == y.staged[y.latest])
    && (y.link.rx.active ==> !y.link.delivery.ready)
  }

  /** Every message either side ever staged for its application is, byte for byte, the message the other side was given
      to send under the same key; what waits for collection is such a message, and nothing is reassembled over it. */
  lemma EndToEndAgreement(cfgA: Config, windowA: nat, cfgB: Config, windowB: nat, turns: seq<Turn>)
    requires ValidConfig(cfgA, windowA) && ValidConfig(cfgB, windowB)
    requires Valid(turns) && Orderly(Start(cfgA, windowA, cfgB, windowB), turns)
    ensures var s := Play(Start(cfgA, windowA, cfgB, windowB), turns); Agrees(s.a, s.b) && Agrees(s.b, s.a)
  {
    hide Start, Play, Orderly, Flow, Agrees;
    EveryRunIsSafe(cfgA, windowA, cfgB, windowB, turns);
    var s := Play(Start(cfgA, windowA, cfgB, windowB), turns);
    FlowStaged(s.a, s.b);
    FlowStaged(s.b, s.a);
  }

  lemma FlowStaged(x: Node, y: Node)
    requires Flow(x, y)
    ensures Agrees(x, y)
  {
    hide TxInv, RxInv, RowsInv, SessionInv, SenderGood, RepliesGood, ReassemblyGood, AcksBacked;
  }

  // ------------------------------------------------------------ success

  // The sender's transfer ends in KAL_OK at this event.
  predicate Succeeds(l: Link, i: Input)
    requires Shape(l) && ValidInput(i)
  {
    var r := Step(l, i).0;
    i.Receive? && l.tx.active && !r.tx.active && r.tx.status == Success
  }

  lemma SuccessFrame(l: Link, f: Frame)
    requires Inv(l) && Canonical(f) && l.tx.active
    requires var r := HandleFrame(l, f).0; !r.tx.active && r.tx.status == Success
    ensures f.kind == ACK && Flagged(f) && f.session == l.session.id && f.message == l.tx.message
      && f.sequence == l.tx.total
  {
    hide RxInv, RowsInv, SessionInv, HandleHello, HandleHelloAck, HandleData, StartOrResume, DupLookup, DupStore,
      Fits, Canonical, NoneSet, NoSegments, Recompute;
    if f.kind == HELLO {
      HelloKeepsBusy(l, f);
    } else if f.kind == HELLO_ACK {
      HandleHelloAckEffect(l, f);
    } else if f.kind == DATA {
      HandleDataEffect(l, f);
    } else if f.kind == ACK {
      if l.tx.active && !Flagged(f) {
        ResumeFrame(l.(tx := MarkAcked(l.tx, f), timer := Recompute(l.timer, l.cfg.airtime, l.window)), false);
      }
    }
  }

  lemma HelloKeepsBusy(l: Link, f: Frame)
    requires Inv(l) && f.kind == HELLO && Canonical(f) && l.tx.active
    ensures HandleHello(l, f).0.tx.status == Busy
  {
    hide RxInv, RowsInv, SessionInv, Canonical, AdoptSession, Fits, NoneSet, NoSegments, CapabilityProfile;
    AdoptKeepsTransfer(Yield(l), f);
    AdoptKeepsTransfer(l.(rx := ClearRx(l.rx), dup := NoDuplicates()), f);
    AdoptKeepsTransfer(l, f);
  }

  lemma AdoptKeepsTransfer(l: Link, f: Frame)
    requires Shape(l) && f.kind == HELLO && Canonical(f)
    ensures var tx := AdoptSession(l, f).0.tx; tx == l.tx.(started := tx.started, inflight := tx.inflight)
  {
    hide Canonical, StartOrResume, Recompute, HelloAckFrame;
    var named := Named(l, f);
    var reply := HelloAckFrame(named, f.message);
    var begun := QueueRow(named, Sent(reply))
      .(session := named.session.(helloAck := Some(reply), open := true),
        timer := Recompute(named.timer, named.cfg.airtime, named.window));
    ResumeFrame(begun, false);
  }

  // A transfer ends in KAL_OK only by a receipt for it.
  lemma SuccessHeard(l: Link, raw: Codec.Raw)
    requires Inv(l) && l.tx.active
    requires var r := Hear(l, raw).0; !r.tx.active && r.tx.status == Success
    ensures DupCache.HeardFrame(l, raw).Some?
    ensures var f := DupCache.HeardFrame(l, raw).value;
            f.kind == ACK && Flagged(f) && f.session == l.session.id && f.message == l.tx.message
              && f.sequence == l.tx.total
  {
    hide TxInv, RxInv, RowsInv, SessionInv, HandleFrame, Canonical, Codec.Decode;
    if DupCache.HeardFrame(l, raw).Some? {
      var noted := Some(Heard(raw, l.timer.now));
      NotedInv(l, noted);
      SuccessFrame(l.(heard := noted), DupCache.HeardFrame(l, raw).value);
    }
  }

  /** The sender reaches KAL_OK only after its peer staged exactly the message it was sending. */
  lemma SuccessMeansStaged(x: Node, y: Node, i: Input)
    requires Flow(x, y) && Flow(y, x) && Admissible(x, y, i) && Succeeds(x.link, i)
    ensures TxKey(x.link) in y.staged && y.staged[TxKey(x.link)] == x.sending
  {
    hide TxInv, RxInv, RowsInv, SessionInv, SpeechGood, TransferGood, ReassemblyGood, RepliesGood, AcksBacked, Step,
      Hear, NewId, OneMessagePerKey, Codec.Decode, Unused, Unstarted, SegmentCount;
    var l := x.link;
    StepIsHear(l, i);
    SuccessHeard(l, i.raw);
    var f := DupCache.HeardFrame(l, i.raw).value;
    AckNamesSent(x, y, f);
    ReceiptOfPeer(y, f);
    if !l.session.open { NotThisSession(x, f); }
  }

  // The node a turn is at, and the other one.
  function Actor(s: System, t: Turn): Node {
    if t.first then s.a else s.b
  }

  function Peer(s: System, t: Turn): Node {
    if t.first then s.b else s.a
  }

  /** The same for every run and its next event, at either side. */
  lemma SuccessInEveryRun(cfgA: Config, windowA: nat, cfgB: Config, windowB: nat, turns: seq<Turn>, t: Turn)
    requires ValidConfig(cfgA, windowA) && ValidConfig(cfgB, windowB)
    requires Valid(turns) && Orderly(Start(cfgA, windowA, cfgB, windowB), turns)
    requires var s := Play(Start(cfgA, windowA, cfgB, windowB), turns);
      Allowed(s, t) && Succeeds(Actor(s, t).link, t.input)
    ensures var s := Play(Start(cfgA, windowA, cfgB, windowB), turns);
            var (x, y) := (Actor(s, t), Peer(s, t));
            TxKey(x.link) in y.staged && y.staged[TxKey(x.link)] == x.sending
  {
    hide Start, Play, Orderly, Flow, Admissible, Succeeds;
    EveryRunIsSafe(cfgA, windowA, cfgB, windowB, turns);
    var s := Play(Start(cfgA, windowA, cfgB, windowB), turns);
    SuccessMeansStaged(Actor(s, t), Peer(s, t), t.input);
  }

  // kal_receive at y hands over what x was given to send under the key y staged last.
  predicate HandsOver(x: Node, y: Node, capacity: nat)
    requires Shape(y.link)
  {
    var (_, status, message) := Collect(y.link, capacity);
    status == Success ==>
      y.latest in y.staged && message == y.staged[y.latest] && y.latest in x.sent && message == x.sent[y.latest]
  }

  /** What kal_receive hands to the application of either side in an orderly run is the message the other side was given
      to send under the key staged last. */
  lemma CollectedWasSent(cfgA: Config, windowA: nat, cfgB: Config, windowB: nat, turns: seq<Turn>, capacity: nat)
    requires ValidConfig(cfgA, windowA) && ValidConfig(cfgB, windowB)
    requires Valid(turns) && Orderly(Start(cfgA, windowA, cfgB, windowB), turns)
    ensures var s := Play(Start(cfgA, windowA, cfgB, windowB), turns);
            HandsOver(s.a, s.b, capacity) && HandsOver(s.b, s.a, capacity)
  {
    hide Start, Play, Orderly, Shape;
    EndToEndAgreement(cfgA, windowA, cfgB, windowB, turns);
    var s := Play(Start(cfgA, windowA, cfgB, windowB), turns);
  }

  lemma ReceiptOfPeer(y: Node, f: Frame)
    requires Shape(y.link) && RepliesGood(y) && Utters(y, f) && f.kind == ACK && Flagged(f)
    ensures ReceiptOk(y.staged, f)
  {
    hide Shape, Names, SegmentCount;
    assert AckGood(y, f);
  }

  // ------------------------------------------------------------ acknowledgement soundness

  // Segment j of x's transfer is safe with y: its message was staged, or the segment is stored with the sender's bytes.
  predicate Rests(x: Node, y: Node, j: nat)
    requires Shape(x.link) && Shape(y.link) && j < MAX_SEGMENTS
  {
    var k, rx, tx := TxKey(x.link), y.link.rx, x.link.tx;
    if k in y.staged then y.staged[k] == x.sending
    else rx.active && RxKey(rx) == k && j < rx.total == tx.total && rx.received[j] && rx.segments[j] == tx.segments[j]
  }

  // Each segment x holds acknowledged is safe with y, unless y gave the reassembly up, and has not staged the message
  // since, or x changed sessions.
  predicate AcksSound(x: Node, y: Node)
    requires Shape(x.link) && Shape(y.link)
  {
    x.link.tx.active && !x.carried && (TxKey(x.link) in y.dropped ==> TxKey(x.link) in y.staged) ==>
      forall j | 0 <= j < MAX_SEGMENTS && x.link.tx.acked[j] :: Rests(x, y, j)
  }

  lemma AckedRests(x: Node, y: Node, j: nat)
    requires Flow(x, y) && x.link.tx.active && !x.carried
    requires TxKey(x.link) in y.dropped ==> TxKey(x.link) in y.staged
    requires j < MAX_SEGMENTS && x.link.tx.acked[j]
    ensures Rests(x, y, j)
  {
    hide RxInv, RowsInv, SessionInv, SpeechGood, RepliesGood, Fits, SegmentCount, Chunk, Transfer, Unused;
    assert Backs(y, TxKey(x.link), j);
    if x.link.session.open && TxKey(x.link) !in y.staged { SameTotal(x, y); }
  }

  lemma FlowAcksSound(x: Node, y: Node)
    requires Flow(x, y)
    ensures Shape(x.link) && Shape(y.link) && AcksSound(x, y)
  {
    hide Flow, Rests;
    FlowShape(x, y);
    if x.link.tx.active && !x.carried && (TxKey(x.link) in y.dropped ==> TxKey(x.link) in y.staged) {
      forall j | 0 <= j < MAX_SEGMENTS && x.link.tx.acked[j]
        ensures Rests(x, y, j)
      {
        AckedRests(x, y, j);
      }
    }
  }

  /** In every orderly run, whatever was lost, duplicated, reordered or replayed: each segment a sender holds
      acknowledged is stored by its peer with the sender's own bytes, or its message was staged, unless a Drops event of
      the peer gave the reassembly up or a Carries event moved the transfer to a new session. */
  lemma AcknowledgementsAreSound(cfgA: Config, windowA: nat, cfgB: Config, windowB: nat, turns: seq<Turn>)
    requires ValidConfig(cfgA, windowA) && ValidConfig(cfgB, windowB)
    requires Valid(turns) && Orderly(Start(cfgA, windowA, cfgB, windowB), turns)
    ensures var s := Play(Start(cfgA, windowA, cfgB, windowB), turns); AcksSound(s.a, s.b) && AcksSound(s.b, s.a)
  {
    hide Start, Play, Orderly, Flow, AcksSound;
    EveryRunIsSafe(cfgA, windowA, cfgB, windowB, turns);
    var s := Play(Start(cfgA, windowA, cfgB, windowB), turns);
    FlowAcksSound(s.a, s.b);
    FlowAcksSound(s.b, s.a);
  }

  // No turn gives a reassembly up, and none takes a partly acknowledged transfer to a new session.
  predicate Undisturbed(s: System, turns: seq<Turn>)
    requires Shaped(s) && Valid(turns)
    decreases |turns|
  {
    turns == [] ||
    var n := |turns| - 1;
    var l := Actor(Play(s, turns[..n]), turns[n]).link;
    Undisturbed(s, turns[..n]) && !Drops(l, turns[n].input) && !Carries(l, turns[n].input)
  }

  predicate Unmarred(n: Node) {
    n.dropped == {} && !n.carried
  }

  lemma {:induction false} NothingLost(s: System, turns: seq<Turn>)
    requires Shaped(s) && Valid(turns) && Undisturbed(s, turns) && Unmarred(s.a) && Unmarred(s.b)
    ensures Unmarred(Play(s, turns).a) && Unmarred(Play(s, turns).b)
    decreases |turns|
  {
    hide Drops, Carries, Shape;
    if turns != [] {
      var n := |turns| - 1;
      NothingLost(s, turns[..n]);
      var before := Play(s, turns[..n]);
    }
  }

  // Each segment x holds acknowledged is safe with y.
  predicate AllRest(x: Node, y: Node)
    requires Shape(x.link) && Shape(y.link)
  {
    x.link.tx.active ==> forall j | 0 <= j < MAX_SEGMENTS && x.link.tx.acked[j] :: Rests(x, y, j)
  }

  /** Without such events every acknowledged segment, at either side, is stored or its message staged. */
  lemma AcknowledgedMeansReceived(cfgA: Config, windowA: nat, cfgB: Config, windowB: nat, turns: seq<Turn>)
    requires ValidConfig(cfgA, windowA) && ValidConfig(cfgB, windowB)
    requires Valid(turns) && Orderly(Start(cfgA, windowA, cfgB, windowB), turns)
    requires Undisturbed(Start(cfgA, windowA, cfgB, windowB), turns)
    ensures var s := Play(Start(cfgA, windowA, cfgB, windowB), turns); AllRest(s.a, s.b) && AllRest(s.b, s.a)
  {
    hide Play, Orderly, Undisturbed, Initial, Shape, Rests;
    AcknowledgementsAreSound(cfgA, windowA, cfgB, windowB, turns);
    NothingLost(Start(cfgA, windowA, cfgB, windowB), turns);
  }

  // Sender and receiver of one key agree on the number of segments.
  lemma SameTotal(x: Node, y: Node)
    requires Flow(x, y) && x.link.tx.active && x.link.session.open && y.link.rx.active
      && RxKey(y.link.rx) == TxKey(x.link)
    ensures y.link.rx.total == x.link.tx.total
    ensures forall j | 0 <= j < x.link.tx.total && y.link.rx.received[j] ::
      y.link.rx.segments[j] == x.link.tx.segments[j]
  {
    hide TxInv, RowsInv, SessionInv, SpeechGood, RepliesGood, StagingGood, AcksBacked, SegmentCount, Chunk, Transfer,
      Unused, Fits, RxAck;
    var rx, tx := y.link.rx, x.link.tx;
    assert SegmentOf(x.sending, tx.total, 0, tx.segments[0]);
    StoredSomething(rx);
    var j :| 0 <= j < rx.total && rx.received[j];
    assert SegmentOf(x.sending, rx.total, j, rx.segments[j]);
    forall k | 0 <= k < tx.total && rx.received[k]
      ensures rx.segments[k] == tx.segments[k]
    {
      assert SegmentOf(x.sending, rx.total, k, rx.segments[k]);
      assert SegmentOf(x.sending, tx.total, k, tx.segments[k]);
    }
  }

  lemma StoredSomething(rx: Reassembly)
    requires RxInv(rx) && rx.active
    ensures exists j :: 0 <= j < rx.total && rx.received[j]
  {
    hide Fits, RxAck;
    if forall j | 0 <= j < MAX_SEGMENTS :: !rx.received[j] {
      CountNone(rx.received, MAX_SEGMENTS);
    }
  }
}
