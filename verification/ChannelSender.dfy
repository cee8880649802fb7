/**
  What a link says stays true of what it was given to send, whatever event it goes through.
 */
module ChannelSender {
  import opened Bytes
  import opened Wire
  import opened LinkSpec
  import opened Reachable
  import opened Invariant
  import opened Effects
  import opened Sessions
  import opened Receiving
  import opened DupCache
  import opened Channel
  import Codec
  import Timers

  // ------------------------------------------------------------ before a session is open

  // An acknowledgement concerns a message that was sent, so it names a session that was used.
  lemma AckNamesSent(x: Node, y: Node, f: Frame)
    requires Shape(y.link) && ReceiverGood(x.sent, y) && Utters(y, f) && f.kind == ACK
    ensures Key(f.session, f.message) in x.sent
  {
    hide Inv, Names, SegmentOf, Backs;
    assert AckGood(y, f);
  }

  lemma UnopenedSend(l: Link, message: seq<byte>, entropy: Option<Entropy>)
    requires Shape(l) && !l.session.open
    requires entropy.Some? ==> |entropy.value.challenge| == CHALLENGE_BYTES
    ensures var r := Send(l, message, entropy).0;
      r.tx == l.tx || !r.tx.active || (Taken(l, Submit(message, entropy)) && r.tx == Load(l, message).tx)
  {
    hide Load, OpenSession, NoneSet, NoSegments, Shape;
    if |message| <= l.cfg.maxMessage && !l.tx.active {
      Timers.LoadKeeps(l, message);
      if !l.session.pending && l.cfg.role.Initiator? { OpenSessionSession(Load(l, message), entropy); }
    }
  }

  lemma UnopenedHello(l: Link, f: Frame)
    requires Inv(l) && f.kind == HELLO && Canonical(f)
    ensures var r := HandleHello(l, f).0; r.session.open || r.tx == l.tx
  {
    hide Canonical, AdoptSession, NoneSet, NoSegments, CapabilityProfile, TxInv, RxInv, RowsInv;
    AdoptSessionSession(Yield(l), f);
    AdoptSessionSession(l.(rx := ClearRx(l.rx), dup := NoDuplicates()), f);
    AdoptSessionSession(l, f);
  }

  lemma UnopenedHelloAck(l: Link, f: Frame)
    requires Shape(l)
    ensures var r := HandleHelloAck(l, f).0; r.session.open || r.tx == l.tx
  {
    hide StartOrResume;
    var window := Negotiated(l, f);
    ResumeSession(l.(session := l.session.(pending := false, open := true), window := window,
                     timer := Recompute(l.timer, l.cfg.airtime, window).(deadline := None)), false);
  }

  lemma UnopenedFrame(l: Link, f: Frame)
    requires Inv(l) && Canonical(f)
    requires f.kind == ACK ==> !l.tx.active || f.session != l.session.id
    ensures var r := HandleFrame(l, f).0; r.session.open || r.tx == l.tx || !r.tx.active
  {
    hide TxInv, RxInv, RowsInv, SessionInv, Canonical, HandleHello, HandleData, DupLookup, DupStore, HandleHelloAck,
      StartOrResume, NoneSet, NoSegments;
    if f.kind == HELLO {
      UnopenedHello(l, f);
    } else if f.kind == HELLO_ACK {
      UnopenedHelloAck(l, f);
    } else if f.kind == DATA {
      HandleDataEffect(l, f);
    }
  }

  lemma UnopenedHear(l: Link, raw: Codec.Raw)
    requires Inv(l)
    requires HearsKind(l, Receive(raw), ACK) ==> !l.tx.active || HeardFrame(l, raw).value.session != l.session.id
    ensures var r := Hear(l, raw).0; r.session.open || r.tx == l.tx || !r.tx.active
  {
    hide TxInv, RxInv, RowsInv, HandleFrame, Canonical, Codec.Decode;
    var noted := l.(heard := Some(Heard(raw, l.timer.now)));
    if HeardFrame(l, raw).Some? {
      NotedInv(l, noted.heard);
      UnopenedFrame(noted, HeardFrame(l, raw).value);
    }
  }

  lemma NotStarted(x: Node)
    requires SenderGood(x) && !x.link.session.open
    ensures !x.link.tx.started
  {
    hide RxInv, RowsInv, SessionInv, SpeechGood, TransferGood, Fits, Unused;
  }

  lemma AckElsewhere(x: Node, y: Node, raw: Codec.Raw)
    requires SenderGood(x) && ReceiverGood(x.sent, y) && Honest(y, Receive(raw))
    requires !x.link.session.open && x.link.tx.active && HearsKind(x.link, Receive(raw), ACK)
    ensures HeardFrame(x.link, raw).value.session != x.link.session.id
  {
    hide TxInv, RxInv, RowsInv, SessionInv, SpeechGood, RepliesGood, ReassemblyGood, StagingGood, TransferGood,
      Codec.Decode, Unstarted;
    var f := HeardFrame(x.link, raw).value;
    AckNamesSent(x, y, f);
    assert Key(f.session, f.message) in x.sent;
  }

  // Without an open session nothing of a waiting transfer is queued, so nothing of it changes.
  lemma Unopened(x: Node, y: Node, i: Input)
    requires SenderGood(x) && ReceiverGood(x.sent, y) && Admissible(x, y, i)
    requires !x.link.session.open
    ensures var l, r := x.link, Step(x.link, i).0;
      r.tx.active && !r.session.open ==>
        (r.tx == l.tx && l.tx.active)
        || (Taken(l, i) && i.Submit? && |i.message| <= MAX_MESSAGE_BYTES && r.tx == Load(l, i.message).tx)
  {
    hide TxInv, RxInv, RowsInv, SessionInv, SpeechGood, RepliesGood, ReassemblyGood, StagingGood, Send, Hear,
      TransferGood, Load, OneMessagePerKey, CancelFrame, Canonical, Recompute, NoneSet, NoSegments, Unused, Unstarted;
    var l := x.link;
    match i
    case Submit(message, entropy) => UnopenedSend(l, message, entropy);
    case Tick(time) => NotStarted(x);
    case Receive(raw) =>
      if HearsKind(l, i, ACK) && l.tx.active { AckElsewhere(x, y, raw); }
      UnopenedHear(l, raw);
    case Abort(_) =>
    case Transmit =>
    case Take(_) =>
    case Restart =>
  }

  // ------------------------------------------------------------ what was sent stays sent

  lemma SentGrows(x: Node, y: Node, i: Input)
    requires Shape(x.link) && Admissible(x, y, i)
    ensures forall k :: k in x.sent ==> k in SentAfter(x, i) && SentAfter(x, i)[k] == x.sent[k]
  {
    hide Shape, Step, Honest, NewId;
  }

  // ------------------------------------------------------------ the transfer

  lemma LoadedGood(l: Link, message: seq<byte>)
    requires Shape(l) && |message| <= MAX_MESSAGE_BYTES
    ensures var tx := Load(l, message).tx;
      && tx.active && 1 <= tx.total && Unstarted(tx)
      && forall i | 0 <= i < tx.total :: SegmentOf(message, tx.total, i, tx.segments[i])
  {
    hide Chunk, Transfer, SegmentCount;
  }

  // The sender before anything was queued, in the words of Effects.
  lemma PreparedGood(x: Node, i: Input, t: Sender)
    requires SenderGood(x) && ValidInput(i) && SenderShape(t) && Prepared(x.link, i, t)
    ensures t.active ==> 1 <= t.total && forall j | 0 <= j < t.total ::
      SegmentOf(SendingAfter(x, i), t.total, j, t.segments[j])
  {
    hide TxInv, RxInv, RowsInv, SessionInv, SpeechGood, SessionGood, SegmentOf, Load, BackOff, AckedAfter,
      InflightAfter, Retries;
    if t.active {
      if Taken(x.link, i) {
        LoadedGood(x.link, i.message);
      }
    }
  }

  lemma TransferGoodAfter(x: Node, y: Node, i: Input)
    requires SenderGood(x) && Admissible(x, y, i)
    ensures TransferGood(After(x, i))
  {
    hide TxInv, RxInv, RowsInv, SessionInv, SpeechGood, SessionGood, SegmentOf, Step, Prepared, Honest, NewId,
      OneMessagePerKey, Originated, FreshData, SentAfter, StagedAfter, LatestAfter, DroppedAfter, CarriedAfter,
      AirAfter, Stages;
    if Adds(i) {
      var t := StepEffect(x.link, i);
      PreparedGood(x, i, t);
    } else {
      EmptyingTx(x.link, i);
    }
  }

  lemma EmptyingTx(l: Link, i: Input)
    requires Shape(l) && (i.Transmit? || i.Restart?)
    ensures var r := Step(l, i).0; (r.tx == l.tx && r.session == l.session) || !r.tx.active
  {
    hide Shape, NoneSet, NoSegments, NoDuplicates, Recompute, Send, Beacon, Cancel, AdvanceTime, Hear, Collect;
  }

  // ------------------------------------------------------------ the session

  // A message accepted with no session open waits for one.
  lemma LoadWaits(l: Link, message: seq<byte>, entropy: Option<Entropy>)
    requires Shape(l) && !l.session.open && Taken(l, Submit(message, entropy))
    requires entropy.Some? ==> |entropy.value.challenge| == CHALLENGE_BYTES
    ensures var r := Send(l, message, entropy).0; r.tx.active ==> r.session.pending || l.cfg.role.Responder?
  {
    hide Load, NoneSet, NoSegments, Shape, OpenSession;
    Timers.LoadKeeps(l, message);
    if !l.session.pending && l.cfg.role.Initiator? { OpenSessionSession(Load(l, message), entropy); }
  }

  lemma HelloNamesSession(y: Node, f: Frame)
    requires SpeechGood(y) && Utters(y, f) && f.kind == HELLO
    ensures f.session != 0
  {
    hide DataOk;
    assert FrameGood(y.sent, f);
  }

  lemma WaitingGood(x: Node, y: Node, i: Input)
    requires SenderGood(x) && ReceiverGood(x.sent, y) && Admissible(x, y, i)
    ensures var r := Step(x.link, i).0;
      r.tx.active && !r.session.open ==>
        (r.session.pending || r.cfg.role.Responder?) && Unstarted(r.tx) && !CarriedAfter(x, i)
  {
    hide TxInv, RxInv, RowsInv, SessionInv, SpeechGood, RepliesGood, ReassemblyGood, StagingGood, TransferGood, Load,
      Step, OneMessagePerKey, Honest, NewId, Unused, Unstarted, HeardFrame, Negotiated, Below, IdsGood;
    var l, r := x.link, Step(x.link, i).0;
    StepSession(l, i);
    StepConfig(l, i);
    if r.tx.active && !r.session.open {
      Unopened(x, y, i);
      if Taken(l, i) {
        LoadedGood(l, i.message);
        SubmitWaits(l, i);
      }
    }
  }

  lemma SubmitWaits(l: Link, i: Input)
    requires Shape(l) && ValidInput(i) && !l.session.open && Taken(l, i)
    ensures var r := Step(l, i).0; r.tx.active ==> r.session.pending || l.cfg.role.Responder?
  {
    LoadWaits(l, i.message, i.entropy);
  }

  lemma StepConfig(l: Link, i: Input)
    requires Shape(l) && ValidInput(i)
    ensures Step(l, i).0.cfg == l.cfg
  {
    hide Step, Timers.Backs, Timers.SameTimeout;
    Timers.StepTimer(l, i);
  }

  lemma IdsGoodAfter(x: Node, y: Node, i: Input)
    requires Inv(x.link) && IdsGood(x) && SpeechGood(y) && Admissible(x, y, i)
    ensures IdsGood(After(x, i))
  {
    hide TxInv, RxInv, RowsInv, SpeechGood, Step, StagedAfter, LatestAfter, DroppedAfter, AirAfter, SendingAfter,
      CarriedAfter, OneMessagePerKey, Codec.Decode, CapabilityProfile, Negotiated, Below;
    var l, r := x.link, Step(x.link, i).0;
    StepInv(l, i);
    StepSession(l, i);
    StepConfig(l, i);
    if i.Receive? && HeardFrame(l, i.raw).Some? && HeardFrame(l, i.raw).value.kind == HELLO {
      HelloNamesSession(y, HeardFrame(l, i.raw).value);
    }
  }

  lemma SessionGoodAfter(x: Node, y: Node, i: Input)
    requires SenderGood(x) && ReceiverGood(x.sent, y) && SpeechGood(y) && Admissible(x, y, i)
    ensures SessionGood(After(x, i))
  {
    hide TxInv, RxInv, RowsInv, SpeechGood, RepliesGood, ReassemblyGood, StagingGood, TransferGood, Step, IdsGood,
      StagedAfter, LatestAfter, DroppedAfter, AirAfter, CarriedAfter, Stages, Unstarted, OneMessagePerKey, Honest,
      NewId;
    IdsGoodAfter(x, y, i);
    WaitingGood(x, y, i);
  }

  // ------------------------------------------------------------ everything it says

  // A DATA frame of a good transfer in an open session carries a segment of the message sent under its key.
  lemma DataFrameGood(n: Node, f: Frame)
    requires Shape(n.link) && TransferGood(n) && SessionGood(n)
    requires n.link.tx.active && f.sequence < n.link.tx.total && f == DataFrame(n.link, f.sequence)
    requires n.link.tx.inflight[f.sequence]
    ensures FrameGood(n.sent, f)
  {
    hide SegmentOf, Unused;
    assert SegmentOf(n.sending, n.link.tx.total, f.sequence, n.link.tx.segments[f.sequence]);
  }

  lemma AppendedGood(l: Link, n: Node, t: Sender, row: Row)
    requires Shape(l) && Inv(n.link) && TransferGood(n) && SessionGood(n) && SenderShape(t)
    requires row.Sent? && Origin(l, n.link, row)
    requires IsData(row) ==> FreshData(t, n.link, row.frame)
    ensures FrameGood(n.sent, row.frame)
  {
    hide TxInv, RxInv, SessionInv, TransferGood, PartialAck, DataOk, Unused, Unstarted, HelloAckFrame, Canonical;
    var f := row.frame;
    if f.kind == DATA {
      DataFrameGood(n, f);
    } else if !FrameOrigin(l, n.link, f) {
      var k :| 0 <= k < |n.link.dup| && n.link.dup[k].Held? && n.link.dup[k].ack == row;
      assert DupAck(n.link.dup[k]);
    }
  }

  lemma OldSpeech(x: Node, y: Node, i: Input, f: Frame)
    requires SenderGood(x) && Admissible(x, y, i) && Utters(x, f)
    ensures FrameGood(After(x, i).sent, f)
  {
    hide TxInv, RxInv, RowsInv, SessionInv, TransferGood, SessionGood, Step, Honest, NewId, OneMessagePerKey,
      StagedAfter, LatestAfter, DroppedAfter, CarriedAfter, AirAfter, SentAfter;
    SentGrows(x, y, i);
  }

  // Nothing is uttered that was not, but what the event appended.
  lemma UtteredBefore(x: Node, i: Input, f: Frame)
    requires Shape(x.link) && ValidInput(i) && Utters(After(x, i), f)
      && (Adds(i) ==> Extends(x.link, Step(x.link, i).0))
    ensures Utters(x, f) || (Adds(i) && Sent(f) in Step(x.link, i).0.out[|x.link.out|..])
  {
    hide Recompute, Send, AdvanceTime, Hear, Beacon, Cancel, Collect,
      StagedAfter, LatestAfter, DroppedAfter, CarriedAfter, SentAfter, ClearTx, ClearRx, NoDuplicates;
    if Adds(i) {
      hide Step;
      var r := Step(x.link, i).0;
      assert r.out == r.out[..|x.link.out|] + r.out[|x.link.out|..];
    }
  }

  lemma SpeechGoodAfter(x: Node, y: Node, i: Input)
    requires SenderGood(x) && ReceiverGood(x.sent, y) && SpeechGood(y) && Admissible(x, y, i)
    ensures SpeechGood(After(x, i))
  {
    hide TxInv, RxInv, RowsInv, SessionInv, TransferGood, SessionGood, RepliesGood, ReassemblyGood, StagingGood,
      FrameGood, Honest, NewId, OneMessagePerKey, Step, Origin, FreshData, IsData, StagedAfter, LatestAfter,
      DroppedAfter, CarriedAfter, AirAfter, SentAfter, Utters, Prepared;
    var l, n := x.link, After(x, i);
    StepInv(l, i);
    TransferGoodAfter(x, y, i);
    SessionGoodAfter(x, y, i);
    var t := l.tx;
    if Adds(i) { t := StepEffect(l, i); }
    forall f | Utters(n, f)
      ensures FrameGood(n.sent, f)
    {
      UtteredBefore(x, i, f);
      if Utters(x, f) {
        OldSpeech(x, y, i, f);
      } else {
        var k :| 0 <= k < |n.link.out[|l.out|..]| && n.link.out[|l.out|..][k] == Sent(f);
        assert n.link.out[|l.out| + k] == Sent(f);
        AppendedGood(l, n, t, Sent(f));
      }
    }
  }

  /** Whatever happens to a link, all it says is about messages it was given, segment by segment. */
  lemma SenderGoodAfter(x: Node, y: Node, i: Input)
    requires SenderGood(x) && ReceiverGood(x.sent, y) && SpeechGood(y) && Admissible(x, y, i)
    ensures SenderGood(After(x, i))
  {
    hide TxInv, RxInv, RowsInv, SessionInv, SpeechGood, TransferGood, SessionGood, RepliesGood, ReassemblyGood,
      StagingGood, Honest, NewId, OneMessagePerKey, Step, StagedAfter, LatestAfter, DroppedAfter, CarriedAfter,
      AirAfter, SentAfter;
    StepInv(x.link, i);
    TransferGoodAfter(x, y, i);
    SessionGoodAfter(x, y, i);
    SpeechGoodAfter(x, y, i);
  }

  // The receiver's knowledge concerns keys whose messages do not change.
  lemma ReceiverKept(before: map<Key, seq<byte>>, after: map<Key, seq<byte>>, y: Node)
    requires ReceiverGood(before, y) && forall k :: k in before ==> k in after && after[k] == before[k]
    ensures ReceiverGood(after, y)
  {
    hide Inv, RepliesGood, SegmentOf;
    InvShape(y.link);
  }

  // ------------------------------------------------------------ acknowledgements

  // Marking what an acknowledgement names marks only what it backs.
  lemma MarkedBacked(x: Node, y: Node, f: Frame, j: nat)
    requires Shape(x.link) && Shape(y.link) && AcksBacked(x, y) && RepliesGood(y) && Utters(y, f) && Matches(x.link, f)
    requires j < MAX_SEGMENTS && MarkAcked(x.link.tx, f).acked[j] && !x.carried
    ensures Backs(y, TxKey(x.link), j)
  {
    hide Names, Backs, Shape, Done, FirstClear, InflightAfter, Concerns;
    assert AckGood(y, f);
  }

  // A transfer of which something is acknowledged keeps its key in an open session unless it is carried to another.
  lemma SessionKept(x: Node, i: Input)
    requires Inv(x.link) && ValidInput(i)
    requires var r := Step(x.link, i).0; x.link.tx.active && r.tx.active && !CarriedAfter(x, i) && x.link.session.open
    requires AnyAcked(x.link.tx) || (i.Receive? && Acknowledges(x.link, i.raw))
    ensures Step(x.link, i).0.session.id == x.link.session.id
  {
    hide TxInv, RxInv, RowsInv, Step, Codec.Decode, CapabilityProfile, AnyAcked, Negotiated;
    StepSession(x.link, i);
  }

  // The acknowledged set grows only by what a matching acknowledgement names.
  lemma AckedOnlyBy(x: Node, y: Node, i: Input, t: Sender, j: nat)
    requires SenderGood(x) && ReceiverGood(x.sent, y) && Admissible(x, y, i)
    requires SenderShape(t) && Prepared(x.link, i, t) && t.active && !Taken(x.link, i) && j < MAX_SEGMENTS && t.acked[j]
    ensures x.link.session.open && x.link.tx.active && t.message == x.link.tx.message
    ensures x.link.tx.acked[j]
      || (i.Receive? && Acknowledges(x.link, i.raw) && t == MarkAcked(x.link.tx, Codec.Decode(i.raw).frame))
  {
    hide TxInv, RxInv, RowsInv, SessionInv, SpeechGood, RepliesGood, ReassemblyGood, StagingGood, TransferGood, NewId,
      OneMessagePerKey, Load, BackOff, Names, Unused, Retries, Codec.Decode;
    if !x.link.session.open && i.Receive? && Acknowledges(x.link, i.raw) {
      AckNamesSent(x, y, Codec.Decode(i.raw).frame);
      NotThisSession(x, Codec.Decode(i.raw).frame);
    }
  }

  lemma NotThisSession(x: Node, f: Frame)
    requires SenderGood(x) && !x.link.session.open && x.link.tx.active && Key(f.session, f.message) in x.sent
    ensures f.session != x.link.session.id
  {
    hide TxInv, RxInv, RowsInv, SessionInv, SpeechGood, TransferGood, Unstarted;
    assert Key(f.session, f.message) in x.sent;
  }

  lemma AcksBackedAfter(x: Node, y: Node, i: Input)
    requires SenderGood(x) && ReceiverGood(x.sent, y) && AcksBacked(x, y) && Admissible(x, y, i)
    ensures AcksBacked(After(x, i), y)
  {
    hide TxInv, RxInv, RowsInv, SessionInv, SpeechGood, ReassemblyGood, StagingGood, RepliesGood, NewId,
      OneMessagePerKey, Step, FreshData, Originated, IsData, StagedAfter, LatestAfter, DroppedAfter, AirAfter,
      SentAfter, Backs, Load, MarkAcked, BackOff, TransferGood, SessionGood, Prepared, Codec.Decode;
    var l, n := x.link, After(x, i);
    if n.link.tx.active && !n.carried {
      if !Adds(i) {
        EmptyingTx(l, i);
      } else {
        var t := StepEffect(l, i);
        forall j | 0 <= j < MAX_SEGMENTS && n.link.tx.acked[j]
          ensures Backs(y, TxKey(n.link), j)
        {
          if Taken(l, i) {
            TakenUnmarked(x, i, t, j);
          } else {
            AckedOnlyBy(x, y, i, t, j);
            SessionKept(x, i);
            if !l.tx.acked[j] { MarkedBacked(x, y, Codec.Decode(i.raw).frame, j); }
          }
        }
      }
    }
  }

  lemma TakenUnmarked(x: Node, i: Input, t: Sender, j: nat)
    requires Inv(x.link) && ValidInput(i) && SenderShape(t) && Prepared(x.link, i, t) && Taken(x.link, i)
      && j < MAX_SEGMENTS
    ensures t.active ==> !t.acked[j]
  {
    hide TxInv, RxInv, RowsInv, SessionInv, Load, SegmentOf;
    LoadedGood(x.link, i.message);
  }

}
