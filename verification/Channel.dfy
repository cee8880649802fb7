/**
  Two links and the channel between them. The channel loses, duplicates, reorders and corrupts: a link hears, at any
  time and any number of times, any frame its peer ever put on air, or something that does not decode.
 */
module Channel {
  import opened Bytes
  import opened Wire
  import opened LinkSpec
  import opened Reachable
  import opened Receiving
  import opened DupCache
  import Codec

  // ------------------------------------------------------------ nodes

  /** A link with what an observer notes about it: the rows it put on air; the message last given to kal_send; the
      messages it took into an open session, by key; the messages it staged for its application, by key, and the latest
      of those keys; the keys whose reassembly an event of Drops gave up; and whether an event of Carries took its
      transfer to a new session. */
  datatype Node = Node(
    link: Link, air: set<Row>, sending: seq<byte>, sent: map<Key, seq<byte>>,
    staged: map<Key, seq<byte>>, latest: Key, dropped: set<Key>, carried: bool)

  function Fresh(cfg: Config, window: nat): Node
    requires ValidConfig(cfg, window)
  {
    Node(Initial(cfg, window), {}, [], map[], map[], Key(0, 0), {}, false)
  }

  function TxKey(l: Link): Key {
    Key(l.session.id, l.tx.message)
  }

  predicate Taken(l: Link, i: Input) {
    i.Submit? && !l.tx.active && |i.message| <= l.cfg.maxMessage
  }

  function SendingAfter(n: Node, i: Input): seq<byte> {
    if Taken(n.link, i) then i.message else n.sending
  }

  function SentAfter(n: Node, i: Input): map<Key, seq<byte>>
    requires Shape(n.link) && ValidInput(i)
  {
    var r := Step(n.link, i).0;
    if r.tx.active && r.session.open then n.sent[TxKey(r) := SendingAfter(n, i)] else n.sent
  }

  function StagedAfter(n: Node, i: Input): map<Key, seq<byte>>
    requires Shape(n.link) && ValidInput(i)
  {
    if Stages(n.link, i) then n.staged[StagedKey(n.link, i) := Step(n.link, i).0.delivery.message] else n.staged
  }

  function LatestAfter(n: Node, i: Input): Key
    requires Shape(n.link) && ValidInput(i)
  {
    if Stages(n.link, i) then StagedKey(n.link, i) else n.latest
  }

  function DroppedAfter(n: Node, i: Input): set<Key>
    requires Shape(n.link)
  {
    if Drops(n.link, i) then n.dropped + {RxKey(n.link.rx)} else n.dropped
  }

  function AirAfter(n: Node, i: Input): set<Row>
    requires Shape(n.link)
  {
    if i.Transmit? && n.link.out != [] then n.air + {n.link.out[0]} else n.air
  }

  predicate AnyAcked(tx: Sender) {
    exists k | 0 <= k < |tx.acked| :: tx.acked[k]
  }

  // A HELLO replaces the session of a transfer of which something was acknowledged.
  predicate Carries(l: Link, i: Input) {
    && l.tx.active && i.Receive? && HeardFrame(l, i.raw).Some? && Replacing(l, HeardFrame(l, i.raw).value)
    && AnyAcked(l.tx)
  }

  predicate CarriedAfter(n: Node, i: Input)
    requires Shape(n.link) && ValidInput(i)
  {
    Step(n.link, i).0.tx.active && n.link.tx.active && (n.carried || Carries(n.link, i))
  }

  function After(n: Node, i: Input): (r: Node)
    requires Shape(n.link) && ValidInput(i)
    ensures Shape(r.link)
  {
    Node(Step(n.link, i).0, AirAfter(n, i), SendingAfter(n, i), SentAfter(n, i), StagedAfter(n, i), LatestAfter(n, i),
         DroppedAfter(n, i), CarriedAfter(n, i))
  }

  // ------------------------------------------------------------ the channel and the hypotheses on a run

  predicate Utters(n: Node, f: Frame) {
    Sent(f) in n.air || Sent(f) in n.link.out
  }

  // What arrives was sent by the peer, or does not decode.
  predicate Honest(peer: Node, i: Input) {
    i.Receive? && Codec.Decode(i.raw).Good? ==> Sent(Codec.Decode(i.raw).frame) in peer.air
  }

  // An opening draws a session id under which nothing was sent before.
  predicate NewId(n: Node, i: Input) {
    i.Submit? && i.entropy.Some? && !n.link.session.open && !n.link.session.pending ==>
      Unused(n.sent, if i.entropy.value.session == 0 then 1 else i.entropy.value.session)
  }

  predicate Unused(sent: map<Key, seq<byte>>, id: u32) {
    forall k :: k in sent ==> k.session != id
  }

  // A key never carries a second message.
  predicate OneMessagePerKey(n: Node, i: Input)
    requires Shape(n.link) && ValidInput(i)
  {
    var r := Step(n.link, i).0;
    r.tx.active && r.session.open && TxKey(r) in n.sent ==> n.sent[TxKey(r)] == SendingAfter(n, i)
  }

  // The runs the theorems are about: honest channel, no beacons, new session ids, one message per key.
  predicate Admissible(n: Node, peer: Node, i: Input)
    requires Shape(n.link)
  {
    ValidInput(i) && !i.Announce? && Honest(peer, i) && NewId(n, i) && OneMessagePerKey(n, i)
  }

  // ------------------------------------------------------------ the sending side

  predicate DataOk(sent: map<Key, seq<byte>>, f: Frame) {
    var k := Key(f.session, f.message);
    k in sent && SegmentOf(sent[k], f.value, f.sequence, f.payload)
  }

  // Segment i of a message of that many segments.
  predicate SegmentOf(message: seq<byte>, total: nat, i: nat, segment: seq<byte>) {
    |message| <= MAX_MESSAGE_BYTES && SegmentCount(|message|) == Some(total) && i < total
      && segment == Chunk(Transfer(message), i)
  }

  predicate FrameGood(sent: map<Key, seq<byte>>, f: Frame) {
    && (f.kind == DATA ==> DataOk(sent, f))
    && (f.kind == HELLO ==> f.session != 0)
    && f.kind != BEACON
  }

  ghost predicate SpeechGood(n: Node) {
    forall f :: Utters(n, f) ==> FrameGood(n.sent, f)
  }

  predicate TransferGood(n: Node)
    requires Shape(n.link)
  {
    var tx := n.link.tx;
    tx.active ==> 1 <= tx.total && forall i | 0 <= i < tx.total :: SegmentOf(n.sending, tx.total, i, tx.segments[i])
  }

  predicate Unstarted(tx: Sender)
    requires SenderShape(tx)
  {
    !tx.started && forall i | 0 <= i < MAX_SEGMENTS :: !tx.acked[i] && !tx.inflight[i]
  }

  // Session ids in use are not zero, and a proposed one is new.
  predicate IdsGood(n: Node) {
    var l := n.link;
    && (l.session.open || l.session.pending ==> l.session.id != 0)
    && (!l.session.open && l.cfg.role.Responder? ==> l.session.id == 0)
    && (forall k :: k in n.sent ==> k.session != 0)
    && (l.session.pending ==> Unused(n.sent, l.session.id))
  }

  predicate SessionGood(n: Node)
    requires Shape(n.link)
  {
    var l := n.link;
    && IdsGood(n)
    && (l.tx.active && !l.session.open ==>
      (l.session.pending || l.cfg.role.Responder?) && Unstarted(l.tx) && !n.carried)
    && (l.tx.active && l.session.open ==> TxKey(l) in n.sent && n.sent[TxKey(l)] == n.sending)
  }

  ghost predicate SenderGood(n: Node) {
    Inv(n.link) && SpeechGood(n) && TransferGood(n) && SessionGood(n)
  }

  // ------------------------------------------------------------ the receiving side

  // The key's message was staged, or its reassembly was given up.
  predicate Done(n: Node, k: Key) {
    k in n.staged || k in n.dropped
  }

  // The key is done or in reassembly.
  predicate Concerns(n: Node, k: Key) {
    Done(n, k) || (n.link.rx.active && RxKey(n.link.rx) == k)
  }

  // Segment i of the message with key k is stored, or the message is done.
  predicate Backs(n: Node, k: Key, i: nat)
    requires Shape(n.link)
  {
    Done(n, k) || (n.link.rx.active && RxKey(n.link.rx) == k && (i < n.link.rx.total ==> n.link.rx.received[i]))
  }

  predicate ReceiptOk(staged: map<Key, seq<byte>>, f: Frame) {
    var k := Key(f.session, f.message);
    k in staged && SegmentCount(|staged[k]|) == Some(f.sequence)
  }

  // What an acknowledgement claims is so.
  ghost predicate AckGood(n: Node, f: Frame)
    requires Shape(n.link)
  {
    f.kind == ACK ==>
      if Flagged(f) then ReceiptOk(n.staged, f)
      else Concerns(n, Key(f.session, f.message)) && forall i | 0 <= i < MAX_SEGMENTS && Names(f, i) ::
        Backs(n, Key(f.session, f.message), i)
  }

  ghost predicate RepliesGood(n: Node)
    requires Shape(n.link)
  {
    && (forall f :: Utters(n, f) ==> AckGood(n, f))
    && (n.link.rx.ack.Some? ==> AckGood(n, n.link.rx.ack.value))
    && (forall k | 0 <= k < |n.link.dup| && n.link.dup[k].Held? && n.link.dup[k].ack.Sent? ::
      AckGood(n, n.link.dup[k].ack.frame))
  }

  predicate ReassemblyGood(sent: map<Key, seq<byte>>, n: Node)
    requires Shape(n.link)
  {
    var rx := n.link.rx;
    rx.active ==>
      RxKey(n.link.rx) in sent && 1 <= rx.total &&
      forall i | 0 <= i < rx.total && rx.received[i] :: SegmentOf(sent[RxKey(n.link.rx)], rx.total, i, rx.segments[i])
  }

  ghost predicate StagingGood(sent: map<Key, seq<byte>>, n: Node)
    requires Shape(n.link)
  {
    && (forall k :: k in n.staged ==> k in sent && n.staged[k] == sent[k])
    && (forall k :: k in n.dropped ==> k in sent)
    && (n.link.delivery.ready ==>
          !n.link.delivery.beacon && n.latest in n.staged && n.staged[n.latest] == n.link.delivery.message)
    && (n.link.rx.active ==> !n.link.delivery.ready)
  }

  ghost predicate ReceiverGood(sent: map<Key, seq<byte>>, n: Node) {
    Inv(n.link) && RepliesGood(n) && ReassemblyGood(sent, n) && StagingGood(sent, n)
  }

  // Every segment the sender holds acknowledged is backed by the receiver.
  predicate AcksBacked(x: Node, y: Node)
    requires Shape(x.link) && Shape(y.link)
  {
    x.link.tx.active && !x.carried ==>
      forall i | 0 <= i < MAX_SEGMENTS && x.link.tx.acked[i] :: Backs(y, TxKey(x.link), i)
  }

  // Everything about messages from x to y.
  ghost predicate Flow(x: Node, y: Node) {
    SenderGood(x) && ReceiverGood(x.sent, y) && AcksBacked(x, y)
  }
}
