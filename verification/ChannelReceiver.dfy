/**
  What a link stores, stages and acknowledges stays true of what its peer was given to send, whatever the channel does.
 */
module ChannelReceiver {
  import opened Bytes
  import opened Wire
  import opened LinkSpec
  import opened Reachable
  import opened Invariant
  import opened Effects
  import opened Integrity
  import opened Receiving
  import opened DupCache
  import opened Channel
  import Acks
  import ChannelSender
  import Codec

  // ------------------------------------------------------------ reassembly

  // The reassembly of a message that was sent: what is stored are segments of that message.
  predicate RecordOf(message: seq<byte>, rx: Reassembly)
    requires ReassemblyShape(rx)
  {
    forall i | 0 <= i < rx.total && rx.received[i] :: SegmentOf(message, rx.total, i, rx.segments[i])
  }

  lemma ContinuedGood(sent: map<Key, seq<byte>>, y: Node, f: Frame)
    requires ReceiverGood(sent, y) && f.kind == DATA && Canonical(f) && DataOk(sent, f)
    requires f.session == y.link.session.id
    ensures var c, k := Continued(y.link, f), Key(f.session, f.message);
      k in sent && RecordOf(sent[k], c) && c.session == f.session && c.message == f.message && c.active
  {
    hide TxInv, RowsInv, RepliesGood, StagingGood, SegmentOf, Canonical, Fits, Count;
    if !(y.link.rx.active && f.message == y.link.rx.message) {
      var from := if y.link.rx.active then ClearRx(y.link.rx) else y.link.rx;
      if !y.link.rx.active { NothingStored(y.link.rx); }
    }
  }

  // ------------------------------------------------------------ what DATA does

  // Everything known when y hears a DATA frame of x.
  predicate HeardData(sent: map<Key, seq<byte>>, y: Node, i: Input)
    requires Shape(y.link) && ValidInput(i)
  {
    HearsKind(y.link, i, DATA) && DataOk(sent, HeardFrame(y.link, i.raw).value)
  }

  lemma OneMoreGood(sent: map<Key, seq<byte>>, c: Reassembly, f: Frame, n: Node)
    requires Shape(n.link) && ReassemblyShape(c) && f.kind == DATA && DataOk(sent, f) && c.active
    requires c.session == f.session && c.message == f.message && RecordOf(sent[Key(f.session, f.message)], c)
    requires OneMore(c, f, n.link.rx)
    ensures ReassemblyGood(sent, n)
  {
    hide SegmentOf, PartialAck;
  }

  lemma SameGood(sent: map<Key, seq<byte>>, y: Node, n: Node)
    requires Shape(y.link) && Shape(n.link) && ReassemblyGood(sent, y)
    requires SameSegments(y.link.rx, n.link.rx) || !n.link.rx.active
    ensures ReassemblyGood(sent, n)
  {
    hide SegmentOf, AckStep;
  }

  lemma ReassemblyAfterData(sent: map<Key, seq<byte>>, y: Node, i: Input)
    requires ReceiverGood(sent, y) && ValidInput(i) && HeardData(sent, y, i)
    ensures ReassemblyGood(sent, After(y, i))
  {
    hide TxInv, RxInv, SessionInv, RowsInv, RepliesGood, StagingGood, ReassemblyGood, SegmentOf, Canonical, Step,
      Continued, Outcome, Completes, PartialAck, StagedAfter, LatestAfter, DroppedAfter, CarriedAfter, SentAfter,
      AirAfter, Stages, RecordOf, OneMore, SameSegments, DataOk, Remembers;
    var l, f, n := y.link, HeardFrame(y.link, i.raw).value, After(y, i);
    HearData(l, i.raw);
    StepIsHear(l, i);
    if SameSegments(l.rx, n.link.rx) || !n.link.rx.active {
      SameGood(sent, y, n);
    } else {
      ContinuedGood(sent, y, f);
      OneMoreGood(sent, Continued(l, f), f, n);
    }
  }

  lemma ContinuedOpens(l: Link, f: Frame)
    requires Inv(l) && f.kind == DATA && Canonical(f)
    ensures Opened(Continued(l, f))
  {
    hide TxInv, RxInv, SessionInv, RowsInv, Opened, Canonical, Begun, NoneSet, NoSegments;
    if l.rx.active && f.message == l.rx.message {
      ActiveOpens(l.rx);
    } else {
      ClearRxInv(l.rx);
      BegunOpens(if l.rx.active then ClearRx(l.rx) else l.rx, f);
    }
  }

  // A complete record of a message concatenates to its transfer.
  lemma WholeIsTransfer(message: seq<byte>, rx: Reassembly)
    requires Filled(rx) && rx.count == rx.total && RecordOf(message, rx)
    ensures |message| <= MAX_MESSAGE_BYTES && Concat(rx.segments, rx.total) == Transfer(message)
  {
    hide Concat, Fits, Count, Chunk, Transfer, SegmentCount, Canonical;
    CompleteMeansAll(rx);
    assert SegmentOf(message, rx.total, 0, rx.segments[0]);
    SegmentationIsLossless(message);
    forall i | 0 <= i < rx.total
      ensures rx.segments[i] == Chunks(Transfer(message), rx.total)[i]
    {
      assert SegmentOf(message, rx.total, i, rx.segments[i]);
    }
    ConcatAgrees(rx.segments, Chunks(Transfer(message), rx.total), rx.total);
  }

  lemma CompletedMessage(sent: map<Key, seq<byte>>, y: Node, f: Frame)
    requires ReceiverGood(sent, y) && f.kind == DATA && Canonical(f) && DataOk(sent, f)
    requires f.session == y.link.session.id && Last(Continued(y.link, f), f)
    ensures var message := sent[Key(f.session, f.message)];
            Verified(Whole(Continued(y.link, f), f), y.link.cfg.maxMessage) == if |message| <= y.link.cfg.maxMessage
              then Some(message) else None
  {
    hide TxInv, RxInv, SessionInv, RowsInv, RepliesGood, StagingGood, ReassemblyGood, SegmentOf, Canonical, Continued,
      Opened, Filled, Concat, Verified, Transfer;
    var c, k := Continued(y.link, f), Key(f.session, f.message);
    ContinuedGood(sent, y, f);
    ContinuedOpens(y.link, f);
    DataFits(f);
    StoredFills(c, f);
    WholeIsTransfer(sent[k], Stored(c, f));
    TransferVerifies(sent[k], y.link.cfg.maxMessage);
  }

  /** What y stages from DATA is, byte for byte, what its peer was given to send under that key. */
  lemma StagedMessage(sent: map<Key, seq<byte>>, y: Node, i: Input)
    requires ReceiverGood(sent, y) && ValidInput(i) && HeardData(sent, y, i) && Stages(y.link, i)
    ensures var r, k := Step(y.link, i).0, StagedKey(y.link, i);
      && k in sent && r.delivery == Delivery(true, false, sent[k])
      && k.session == y.link.session.id && !r.rx.active
  {
    hide TxInv, RxInv, SessionInv, RowsInv, RepliesGood, StagingGood, ReassemblyGood, SegmentOf, Canonical, Continued,
      Verified, Whole, Last, Step, Remembers;
    var l, f := y.link, HeardFrame(y.link, i.raw).value;
    StepIsHear(l, i);
    HearData(l, i.raw);
    CompletedMessage(sent, y, f);
  }

  // ------------------------------------------------------------ staging

  // What y hears is the peer's, so its DATA is good and it hears no beacon.
  lemma HearsPeer(x: Node, y: Node, i: Input)
    requires SpeechGood(x) && Shape(y.link) && Admissible(y, x, i)
    ensures HearsKind(y.link, i, DATA) ==> HeardData(x.sent, y, i)
    ensures !HearsKind(y.link, i, BEACON)
  {
    hide Shape, DataOk, OneMessagePerKey, NewId, Codec.Decode;
    if i.Receive? && HeardFrame(y.link, i.raw).Some? {
      assert Utters(x, HeardFrame(y.link, i.raw).value);
    }
  }

  lemma StagesHears(l: Link, i: Input)
    requires Shape(l) && ValidInput(i) && Stages(l, i)
    ensures HearsKind(l, i, DATA)
  {
    hide Step;
  }

  // The keys known to be staged or dropped are keys of sent messages.
  predicate Accounted(sent: map<Key, seq<byte>>, n: Node) {
    && (forall k :: k in n.staged ==> k in sent && n.staged[k] == sent[k])
    && (forall k :: k in n.dropped ==> k in sent)
  }

  lemma AccountedAfter(x: Node, y: Node, i: Input)
    requires SpeechGood(x) && ReceiverGood(x.sent, y) && Admissible(y, x, i)
    ensures Accounted(x.sent, After(y, i))
  {
    hide TxInv, RxInv, SessionInv, RowsInv, RepliesGood, SegmentOf, SpeechGood, Honest, NewId, OneMessagePerKey, Step,
      HeardData, HearsKind, StagedKey, CarriedAfter, SentAfter, AirAfter, Stages, Drops;
    HearsPeer(x, y, i);
    if Drops(y.link, i) { DropsActive(y.link, i); }
    if Stages(y.link, i) {
      StagesHears(y.link, i);
      StagedMessage(x.sent, y, i);
    }
  }

  lemma StagedWitness(x: Node, y: Node, i: Input)
    requires SpeechGood(x) && ReceiverGood(x.sent, y) && Admissible(y, x, i) && Stages(y.link, i)
    ensures var n, k := After(y, i), StagedKey(y.link, i);
            k in n.staged && n.latest == k && n.link.delivery == Delivery(true, false, n.staged[k]) && !n.link.rx.active
  {
    hide TxInv, RxInv, SessionInv, RowsInv, RepliesGood, ReassemblyGood, StagingGood, SpeechGood, Honest, NewId,
      OneMessagePerKey, Step, HeardData, HearsKind, DroppedAfter, CarriedAfter, SentAfter, AirAfter;
    HearsPeer(x, y, i);
    StagesHears(y.link, i);
    StagedMessage(x.sent, y, i);
  }

  lemma StagingAfter(x: Node, y: Node, i: Input)
    requires SpeechGood(x) && ReceiverGood(x.sent, y) && Admissible(y, x, i)
    ensures StagingGood(x.sent, After(y, i))
  {
    hide TxInv, RxInv, SessionInv, RowsInv, RepliesGood, ReassemblyGood, SpeechGood, Honest, NewId, OneMessagePerKey,
      Step, HeardData, HearsKind, StagedKey, DroppedAfter, CarriedAfter, SentAfter, AirAfter, Stages;
    var l, n := y.link, After(y, i);
    AccountedAfter(x, y, i);
    HearsPeer(x, y, i);
    if Stages(l, i) {
      StagesHears(l, i);
      StagedWitness(x, y, i);
    } else if HearsKind(l, i, DATA) {
      UnstagedData(y, i);
    } else {
      StepPassive(l, i);
    }
  }

  // A DATA frame that stages nothing leaves what waits for collection alone, and starts nothing behind it.
  lemma UnstagedData(y: Node, i: Input)
    requires Inv(y.link) && ValidInput(i) && HearsKind(y.link, i, DATA) && !Stages(y.link, i)
    requires y.link.rx.active ==> !y.link.delivery.ready
    ensures var r := Step(y.link, i).0; r.delivery == y.link.delivery && (r.rx.active ==> !r.delivery.ready)
  {
    hide TxInv, RxInv, SessionInv, RowsInv, Step, Continued, Completes, Verified, Remembers, PartialAck;
    StepIsHear(y.link, i);
    HearData(y.link, i.raw);
  }

  // ------------------------------------------------------------ replies

  lemma KindIsReceive(l: Link, i: Input)
    requires HearsKind(l, i, DATA)
    ensures i.Receive? && HeardFrame(l, i.raw).Some? && HeardFrame(l, i.raw).value.kind == DATA
  {
  }

  lemma BacksKept(y: Node, i: Input, k: Key, j: nat)
    requires Inv(y.link) && ValidInput(i)
    ensures Concerns(y, k) ==> Concerns(After(y, i), k)
    ensures j < MAX_SEGMENTS && Backs(y, k, j) ==> Backs(After(y, i), k, j)
  {
    hide TxInv, RxInv, SessionInv, RowsInv, Step, CarriedAfter, SentAfter, AirAfter, Stages, StagedKey, Drops;
    if Done(y, k) {
    } else if y.link.rx.active && RxKey(y.link.rx) == k {
      StepFate(y.link, i);
    }
  }

  lemma AckKept(x: Node, y: Node, i: Input, f: Frame)
    requires SpeechGood(x) && ReceiverGood(x.sent, y) && Admissible(y, x, i) && AckGood(y, f)
    ensures AckGood(After(y, i), f)
  {
    hide TxInv, RxInv, SessionInv, RowsInv, RepliesGood, SpeechGood, ReassemblyGood, Honest, NewId, OneMessagePerKey,
      Step, HeardData, Names, Backs, Concerns, StagedAfter, LatestAfter, DroppedAfter, CarriedAfter, SentAfter,
      AirAfter, SegmentCount;
    if f.kind == ACK {
      var k := Key(f.session, f.message);
      if Flagged(f) {
        ReceiptKept(x, y, i, f);
      } else {
        forall j | 0 <= j < MAX_SEGMENTS && Names(f, j)
          ensures Backs(After(y, i), k, j)
        {
          BacksKept(y, i, k, j);
        }
        BacksKept(y, i, k, 0);
      }
    }
  }

  lemma ReceiptKept(x: Node, y: Node, i: Input, f: Frame)
    requires SpeechGood(x) && ReceiverGood(x.sent, y) && Admissible(y, x, i) && ReceiptOk(y.staged, f)
    ensures ReceiptOk(After(y, i).staged, f)
  {
    hide TxInv, RxInv, SessionInv, RowsInv, RepliesGood, SpeechGood, ReassemblyGood, Honest, NewId, OneMessagePerKey,
      Step, HeardData, DroppedAfter, CarriedAfter, SentAfter, AirAfter, StagedKey, Stages, SegmentCount;
    if Stages(y.link, i) {
      HearsPeer(x, y, i);
      StagesHears(y.link, i);
      StagedMessage(x.sent, y, i);
    }
  }

  // The acknowledgement of the state itself.
  lemma OwnAck(n: Node)
    requires Shape(n.link) && n.link.rx.active
    ensures AckGood(n, PartialAck(n.link.rx))
  {
    hide Bitmap, FirstClear, Names, Done;
    var f := PartialAck(n.link.rx);
    forall j | 0 <= j < MAX_SEGMENTS && Names(f, j)
      ensures Backs(n, Key(f.session, f.message), j)
    {
      if j < n.link.rx.total { Acks.PartialAckNames(n.link.rx, j); }
    }
  }

  // A receipt for the message just staged.
  lemma NewReceipt(x: Node, y: Node, i: Input)
    requires SpeechGood(x) && ReceiverGood(x.sent, y) && Admissible(y, x, i) && Stages(y.link, i)
    ensures HearsKind(y.link, i, DATA) && AckGood(After(y, i), Receipt(HeardFrame(y.link, i.raw).value))
  {
    hide TxInv, RxInv, SessionInv, RowsInv, RepliesGood, ReassemblyGood, StagingGood, SpeechGood, Honest, NewId,
      OneMessagePerKey, Step, DroppedAfter, CarriedAfter, SentAfter, AirAfter, Transfer, Chunk, SegmentCount;
    HearsPeer(x, y, i);
    StagesHears(y.link, i);
    StagedMessage(x.sent, y, i);
  }

  lemma CacheAfter(x: Node, y: Node, i: Input, k: nat)
    requires SpeechGood(x) && ReceiverGood(x.sent, y) && Admissible(y, x, i)
    requires var dup := Step(y.link, i).0.dup; k < |dup| && dup[k].Held? && dup[k].ack.Sent?
    ensures AckGood(After(y, i), Step(y.link, i).0.dup[k].ack.frame)
  {
    hide TxInv, RxInv, SessionInv, RowsInv, ReassemblyGood, StagingGood, SpeechGood, Honest, NewId, OneMessagePerKey,
      Step, HeardData, AckGood, StagedAfter, LatestAfter, DroppedAfter, CarriedAfter, SentAfter, AirAfter, HearsKind,
      Receipt, Outcome, SameSegments, OneMore, Continued, Completes;
    var l, dup := y.link, Step(y.link, i).0.dup;
    HearsPeer(x, y, i);
    if HearsKind(l, i, DATA) {
      KindIsReceive(l, i);
      StepIsHear(l, i);
      HearData(l, i.raw);
    } else {
      StepPassive(l, i);
    }
    if dup[k] in l.dup {
      AckKept(x, y, i, dup[k].ack.frame);
    } else {
      NewReceipt(x, y, i);
    }
  }

  lemma ContinuedAck(l: Link, f: Frame)
    requires Inv(l) && f.kind == DATA && Canonical(f)
    ensures Continued(l, f).ack == l.rx.ack || Continued(l, f).ack.None?
  {
    hide TxInv, SessionInv, RowsInv, Canonical, Fits, Count, NoneSet, NoSegments;
  }

  lemma CachedReplyOrigin(x: Node, y: Node, i: Input)
    requires SpeechGood(x) && Inv(y.link) && Admissible(y, x, i)
    ensures var l, r := y.link, Step(y.link, i).0;
      r.rx.ack.None? || r.rx.ack == l.rx.ack || (r.rx.active && r.rx.ack == Some(PartialAck(r.rx)))
  {
    hide TxInv, SessionInv, RowsInv, SpeechGood, Honest, NewId, OneMessagePerKey, Step, HeardData, Remembers, Continued,
      HearsKind, Outcome, Completes, PartialAck, Fits, Count, Canonical;
    var l, r := y.link, Step(y.link, i).0;
    StepInv(l, i);
    HearsPeer(x, y, i);
    if HearsKind(l, i, DATA) {
      KindIsReceive(l, i);
      StepIsHear(l, i);
      HearData(l, i.raw);
      ContinuedAck(l, HeardFrame(l, i.raw).value);
    } else {
      StepPassive(l, i);
    }
  }

  lemma CachedReplyAfter(x: Node, y: Node, i: Input)
    requires SpeechGood(x) && ReceiverGood(x.sent, y) && Admissible(y, x, i)
    requires Step(y.link, i).0.rx.ack.Some?
    ensures AckGood(After(y, i), Step(y.link, i).0.rx.ack.value)
  {
    hide TxInv, RxInv, SessionInv, RowsInv, ReassemblyGood, StagingGood, SpeechGood, Honest, NewId, OneMessagePerKey,
      Step, AckGood, StagedAfter, LatestAfter, DroppedAfter, CarriedAfter, SentAfter, AirAfter, PartialAck;
    var l, r := y.link, Step(y.link, i).0;
    CachedReplyOrigin(x, y, i);
    if l.rx.ack == r.rx.ack { AckKept(x, y, i, r.rx.ack.value); } else { OwnAck(After(y, i)); }
  }

  lemma SpokenReply(x: Node, y: Node, i: Input, f: Frame)
    requires SpeechGood(x) && ReceiverGood(x.sent, y) && Admissible(y, x, i)
    requires Origin(y.link, Step(y.link, i).0, Sent(f))
    ensures AckGood(After(y, i), f)
  {
    hide TxInv, RxInv, SessionInv, RowsInv, ReassemblyGood, StagingGood, SpeechGood, Honest, NewId, OneMessagePerKey,
      Step, HeardData, StagedAfter, LatestAfter, DroppedAfter, CarriedAfter, SentAfter, AirAfter, PartialAck,
      HelloFrame, HelloAckFrame, DataFrame, ReceiptOk, Names;
    var l, r := y.link, Step(y.link, i).0;
    if f.kind == ACK {
      if FrameOrigin(l, r, f) {
        if f == PartialAck(r.rx) { OwnAck(After(y, i)); } else { AckKept(x, y, i, f); }
      } else {
        var k :| 0 <= k < |r.dup| && r.dup[k].Held? && r.dup[k].ack == Sent(f);
        CacheAfter(x, y, i, k);
      }
    }
  }

  lemma RepliesAfter(x: Node, y: Node, i: Input)
    requires SpeechGood(x) && ReceiverGood(x.sent, y) && Admissible(y, x, i)
    ensures RepliesGood(After(y, i))
  {
    hide TxInv, RxInv, SessionInv, RowsInv, ReassemblyGood, StagingGood, SpeechGood, Honest, NewId, OneMessagePerKey,
      Step, HeardData, AckGood, StagedAfter, LatestAfter, DroppedAfter, CarriedAfter, SentAfter, AirAfter, Utters,
      Origin, Sends, Prepared;
    var l, n := y.link, After(y, i);
    if n.link.rx.ack.Some? { CachedReplyAfter(x, y, i); }
    forall k | 0 <= k < |n.link.dup| && n.link.dup[k].Held? && n.link.dup[k].ack.Sent?
      ensures AckGood(n, n.link.dup[k].ack.frame)
    {
      CacheAfter(x, y, i, k);
    }
    var t := l.tx;
    if Adds(i) { t := StepEffect(l, i); }
    forall f | Utters(n, f)
      ensures AckGood(n, f)
    {
      ChannelSender.UtteredBefore(y, i, f);
      if Utters(y, f) {
        AckKept(x, y, i, f);
      } else {
        var k :| 0 <= k < |n.link.out[|l.out|..]| && n.link.out[|l.out|..][k] == Sent(f);
        assert n.link.out[|l.out| + k] == Sent(f);
        SpokenReply(x, y, i, f);
      }
    }
  }

  lemma ReassemblyAfter(x: Node, y: Node, i: Input)
    requires SpeechGood(x) && ReceiverGood(x.sent, y) && Admissible(y, x, i)
    ensures ReassemblyGood(x.sent, After(y, i))
  {
    hide TxInv, RxInv, SessionInv, RowsInv, RepliesGood, StagingGood, SpeechGood, Honest, NewId, OneMessagePerKey, Step,
      HeardData, StagedAfter, LatestAfter, DroppedAfter, CarriedAfter, SentAfter, AirAfter, HearsKind, SegmentOf;
    HearsPeer(x, y, i);
    if HearsKind(y.link, i, DATA) {
      ReassemblyAfterData(x.sent, y, i);
    } else {
      StepPassive(y.link, i);
    }
  }

  /** Whatever the channel brings, what a link holds, staged and acknowledged stays true of what its peer sent. */
  lemma ReceiverGoodAfter(x: Node, y: Node, i: Input)
    requires SpeechGood(x) && ReceiverGood(x.sent, y) && Admissible(y, x, i)
    ensures ReceiverGood(x.sent, After(y, i))
  {
    hide TxInv, RxInv, SessionInv, RowsInv, RepliesGood, ReassemblyGood, StagingGood, SpeechGood, Honest, NewId,
      OneMessagePerKey, Step, StagedAfter, LatestAfter, DroppedAfter, CarriedAfter, SentAfter, AirAfter;
    StepInv(y.link, i);
    ReassemblyAfter(x, y, i);
    StagingAfter(x, y, i);
    RepliesAfter(x, y, i);
  }

  // What the sender holds acknowledged stays backed while the receiver goes on.
  lemma AcksStayBacked(x: Node, y: Node, i: Input)
    requires SpeechGood(x) && Shape(x.link) && ReceiverGood(x.sent, y) && AcksBacked(x, y) && Admissible(y, x, i)
    ensures AcksBacked(x, After(y, i))
  {
    hide TxInv, RxInv, SessionInv, RowsInv, RepliesGood, ReassemblyGood, StagingGood, SpeechGood, Honest, NewId,
      OneMessagePerKey, Step, StagedAfter, LatestAfter, DroppedAfter, CarriedAfter, SentAfter, AirAfter, Backs;
    if x.link.tx.active && !x.carried {
      forall j | 0 <= j < MAX_SEGMENTS && x.link.tx.acked[j]
        ensures Backs(After(y, i), TxKey(x.link), j)
      {
        BacksKept(y, i, TxKey(x.link), j);
      }
    }
  }
}
