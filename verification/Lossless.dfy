/**
  Loss-free completion: over an in-order lossless channel, with one window on both sides, an idle receiver and no
  deadline expiring, a message of n segments takes exactly n DATA frames and ceil(n / w) acknowledgements, however
  transmissions, receptions and the passing of time are interleaved.
 */
module Lossless {
  import opened Bytes
  import opened Wire
  import opened LinkSpec
  import opened Reachable
  import opened Invariant
  import opened Effects
  import opened Integrity
  import opened DupCache
  import Acks
  import Channel
  import Codec
  import Receiving
  import Timers

  // ------------------------------------------------------------ the exchange

  /** Sender x, receiver y, the frames on their way to each, in order, how many each has put on air, and how many have
      been heard. */
  datatype Exchange = Exchange(x: Link, y: Link, toX: seq<Row>, toY: seq<Row>, data: nat, acks: nat, heard: nat)

  // A side puts its oldest frame on air, hears the oldest frame on its way, or lets time pass.
  datatype Event = Speak(sender: bool) | Listen(sender: bool) | Wait(sender: bool, time: nat)

  predicate Sound(e: Exchange) {
    Shape(e.x) && Shape(e.y)
  }

  predicate Audible(rows: seq<Row>) {
    rows != [] && rows[0].Sent? && Canonical(rows[0].frame)
  }

  // Nothing is lost or overtaken.
  function Next(e: Exchange, event: Event): (r: Exchange)
    requires Sound(e)
    ensures Sound(r)
  {
    hide Shape, Step, Canonical;
    match event
    case Speak(true) =>
      if e.x.out == [] then e else e.(x := Step(e.x, Transmit).0, toY := e.toY + [e.x.out[0]], data := e.data + 1)
    case Speak(false) =>
      if e.y.out == [] then e else e.(y := Step(e.y, Transmit).0, toX := e.toX + [e.y.out[0]], acks := e.acks + 1)
    case Listen(true) =>
      if !Audible(e.toX) then e
      else e.(x := Step(e.x, Receive(Codec.Encode(e.toX[0].frame))).0, toX := e.toX[1..], heard := e.heard + 1)
    case Listen(false) =>
      if !Audible(e.toY) then e
      else e.(y := Step(e.y, Receive(Codec.Encode(e.toY[0].frame))).0, toY := e.toY[1..], heard := e.heard + 1)
    case Wait(true, time) => e.(x := Step(e.x, Tick(time)).0)
    case Wait(false, time) => e.(y := Step(e.y, Tick(time)).0)
  }

  function Play(e: Exchange, events: seq<Event>): (r: Exchange)
    requires Sound(e)
    ensures Sound(r)
    decreases |events|
  {
    if events == [] then e else Next(Play(e, events[..|events| - 1]), events[|events| - 1])
  }

  // No deadline has passed when time does.
  predicate Early(e: Exchange, event: Event) {
    event.Wait? ==> !Due(if event.sender then e.x else e.y, event.time)
  }

  predicate Timely(e: Exchange, events: seq<Event>)
    requires Sound(e)
    decreases |events|
  {
    events == [] || (Timely(e, events[..|events| - 1]) && Early(Play(e, events[..|events| - 1]), events[|events| - 1]))
  }

  // ------------------------------------------------------------ the sender

  function Least(a: nat, b: nat): nat {
    if a < b then a else b
  }

  function Frames(l: Link, from: nat, end: nat): (rows: seq<Row>)
    requires Shape(l) && from <= end <= l.tx.total
    ensures |rows| == end - from
  {
    seq(end - from, i requires 0 <= i < end - from => Sent(DataFrame(l, from + i)))
  }

  // Segments below `from` are acknowledged, the others neither acknowledged nor on air.
  predicate Clean(tx: Sender, from: nat)
    requires SenderShape(tx)
  {
    && from <= tx.total
    && (forall i | 0 <= i < from :: tx.acked[i])
    && (forall i | from <= i < MAX_SEGMENTS :: !tx.acked[i])
    && (forall i | 0 <= i < MAX_SEGMENTS :: !tx.inflight[i])
  }

  // On air are exactly the segments from..end.
  predicate OnAir(tx: Sender, from: nat, end: nat)
    requires SenderShape(tx)
  {
    forall i | 0 <= i < MAX_SEGMENTS :: tx.inflight[i] <==> from <= i < end
  }

  lemma FramesFirst(l: Link, m: Link, from: nat, end: nat)
    requires Shape(l) && Shape(m) && from < end <= l.tx.total
    requires m.session == l.session && m.tx == l.tx.(inflight := m.tx.inflight)
    ensures Frames(l, from, end) == [Sent(DataFrame(l, from))] + Frames(m, from + 1, end)
  {
    var a, b := Frames(l, from, end), [Sent(DataFrame(l, from))] + Frames(m, from + 1, end);
    forall k | 0 <= k < end - from
      ensures a[k] == b[k]
    {
      assert DataFrame(l, from + k) == DataFrame(m, from + k);
    }
  }

  lemma {:induction false} QueueExactly(l: Link, start: nat, sequence: nat, queued: nat, end: nat)
    requires Shape(l) && TxInv(l.tx) && queued <= l.window
    requires start <= sequence <= end == Least(sequence + (l.window - queued), l.tx.total)
    requires |l.out| + l.window - queued <= OUT_QUEUE_FRAMES
    requires (forall i | sequence <= i < MAX_SEGMENTS :: !l.tx.acked[i]) && OnAir(l.tx, start, sequence)
    ensures var r := QueueFrom(l, sequence, queued);
            r.0.out == l.out + Frames(l, sequence, end) && OnAir(r.0.tx, start, end) && r.1 == queued + end - sequence
    decreases end - sequence
  {
    hide QueueFrom, DataFrame, Fits, TxInv, Frames;
    QueueFromTurn(l, sequence, queued);
    if sequence < end {
      var m := Marked(l, sequence);
      MarkedInv(l, sequence);
      QueueExactly(m, start, sequence + 1, queued + 1, end);
      FramesFirst(l, m, sequence, end);
      assert l.out + [Sent(DataFrame(l, sequence))] + Frames(m, sequence + 1, end)
          == l.out + ([Sent(DataFrame(l, sequence))] + Frames(m, sequence + 1, end));
    } else {
      assert Frames(l, sequence, end) == [];
    }
  }

  // The window of frames from segment `from` on.
  function WindowRows(l: Link, from: nat): seq<Row>
    requires Shape(l) && from <= l.tx.total
  {
    Frames(l, from, Least(from + l.window, l.tx.total))
  }

  // The sender with `from` segments acknowledged and the next window out of its hands.
  predicate OnWindow(l: Link, message: seq<byte>, from: nat)
    requires Shape(l)
  {
    hide Chunk, Transfer, DataFrame, Frames, SegmentCount;
    && l.tx.active && l.session.open && |message| <= MAX_MESSAGE_BYTES
    && SegmentCount(|message|) == Some(l.tx.total) && from < l.tx.total && l.tx.base == from
    && (forall i | 0 <= i < l.tx.total :: l.tx.segments[i] == Chunk(Transfer(message), i))
    && (forall i | 0 <= i < MAX_SEGMENTS :: l.tx.acked[i] <==> i < from)
    && OnAir(l.tx, from, Least(from + l.window, l.tx.total))
    && Inv(l)
  }

  // The same with that window in its ring.
  predicate Sending(l: Link, message: seq<byte>, from: nat)
    requires Shape(l)
  {
    from <= l.tx.total && l.out == WindowRows(l, from) && OnWindow(l, message, from)
  }

  // A transfer on an open session with nothing on air, about to be resumed from its base.
  predicate Resumable(l: Link, message: seq<byte>)
    requires Shape(l)
  {
    hide Chunk, Transfer, SegmentCount;
    && l.tx.active && l.session.open && |message| <= MAX_MESSAGE_BYTES && |l.out| + l.window <= OUT_QUEUE_FRAMES
    && SegmentCount(|message|) == Some(l.tx.total) && l.tx.base < l.tx.total && Clean(l.tx, l.tx.base)
    && (forall i | 0 <= i < l.tx.total :: l.tx.segments[i] == Chunk(Transfer(message), i))
    && Inv(l)
  }

  // The next window is behind what was in the ring, and the deadline is armed.
  predicate Resumed(l: Link, r: Link, message: seq<byte>)
    requires Shape(l) && Shape(r)
  {
    hide DataFrame, Inv, Frames, OnWindow;
    && r.session == l.session && r.window == l.window && r.heard == l.heard && r.cfg == l.cfg
    && r.tx == l.tx.(started := true, inflight := r.tx.inflight) && r.timer.deadline.Some?
    && l.tx.base < l.tx.total && r.out == l.out + Frames(r, l.tx.base, Least(l.tx.base + l.window, l.tx.total))
    && OnWindow(r, message, l.tx.base)
  }

  lemma ResumeQueues(l: Link, message: seq<byte>, retransmission: bool)
    requires Shape(l) && Resumable(l, message)
    ensures Resumed(l, StartOrResume(l, retransmission), message)
  {
    hide TxInv, RxInv, RowsInv, SessionInv, QueueFrom, DataFrame, SegmentCount, Chunk, Transfer, Recompute, Frames;
    var end := Least(l.tx.base + l.window, l.tx.total);
    QueueExactly(l, l.tx.base, l.tx.base, 0, end);
    QueueFromFrame(l, l.tx.base, 0);
    ResumeInv(l, retransmission);
    ResumeFrame(l, retransmission);
    SameFrames(l, StartOrResume(l, retransmission), l.tx.base, end);
  }

  // With an empty ring that window is all there is.
  lemma ResumeSending(l: Link, message: seq<byte>)
    requires Inv(l) && l.tx.active && l.session.open && |message| <= MAX_MESSAGE_BYTES && l.out == []
    requires SegmentCount(|message|) == Some(l.tx.total) && l.tx.base < l.tx.total && Clean(l.tx, l.tx.base)
    requires forall i | 0 <= i < l.tx.total :: l.tx.segments[i] == Chunk(Transfer(message), i)
    ensures var r := StartOrResume(l, false);
      && Sending(r, message, l.tx.base) && r.session == l.session && r.window == l.window
      && r.tx.message == l.tx.message && r.tx.total == l.tx.total && r.timer.deadline.Some?
  {
    hide TxInv, RxInv, RowsInv, SessionInv, StartOrResume, SegmentCount, Chunk, Transfer, Frames, OnWindow, Clean;
    ResumeQueues(l, message, false);
    var r := StartOrResume(l, false);
    assert [] + Frames(r, l.tx.base, Least(l.tx.base + l.window, l.tx.total)) == WindowRows(r, l.tx.base);
  }

  lemma SameFrames(l: Link, m: Link, from: nat, end: nat)
    requires Shape(l) && Shape(m) && from <= end <= l.tx.total
    requires m.session == l.session && m.tx == l.tx.(started := m.tx.started, inflight := m.tx.inflight)
    ensures Frames(l, from, end) == Frames(m, from, end)
  {
    var a, b := Frames(l, from, end), Frames(m, from, end);
    forall k | 0 <= k < end - from
      ensures a[k] == b[k]
    {
      assert DataFrame(l, from + k) == DataFrame(m, from + k);
    }
  }

  /** kal_send on an open idle link puts the first window on air. */
  lemma SendStarts(l: Link, message: seq<byte>)
    requires Inv(l) && l.session.open && !l.tx.active && l.out == [] && |message| <= l.cfg.maxMessage
    ensures var r := Send(l, message, None).0;
      && Sending(r, message, 0) && r.session == l.session && r.window == l.window
        && r.tx.message == l.session.nextMessage
  {
    hide TxInv, RxInv, RowsInv, SessionInv, StartOrResume, Chunk, Transfer, SegmentCount;
    LoadInv(l, message);
    ResumeSending(Load(l, message), message);
  }

  // ------------------------------------------------------------ the receiver

  // The receiver, ready for segment m of a message under a key it does not remember.
  predicate Ready(l: Link, message: seq<byte>, key: Receiving.Key, total: nat, m: nat)
    requires Shape(l)
  {
    && l.session.open && l.session.id == key.session && !l.delivery.ready
    && |message| <= l.cfg.maxMessage && SegmentCount(|message|) == Some(total) && m < total
    && Missing(l.dup, l.timer.now, key.session, key.message)
    && (m == 0 ==> !l.rx.active)
    && (0 < m ==> l.rx.active && l.rx.message == key.message && l.rx.total == total && l.rx.count == m
                  && (forall i | 0 <= i < MAX_SEGMENTS :: l.rx.received[i] <==> i < m)
                  && (forall i | 0 <= i < m :: l.rx.segments[i] == Chunk(Transfer(message), i)))
    && Inv(l)
  }

  // DATA frame m of the message.
  predicate Segment(f: Frame, message: seq<byte>, key: Receiving.Key, total: nat, m: nat) {
    && f.kind == DATA && Canonical(f) && f.session == key.session && f.message == key.message
    && f.sequence == m && f.value == total && f.payload == Chunk(Transfer(message), m)
  }

  // The reassembly record the segment goes into.
  predicate Prefix(rx: Reassembly, message: seq<byte>, key: Receiving.Key, total: nat, m: nat)
    requires ReassemblyShape(rx)
  {
    && rx.active && rx.session == key.session && rx.message == key.message && rx.total == total
      && rx.count == m <= total
    && (forall i | 0 <= i < MAX_SEGMENTS :: rx.received[i] <==> i < m)
    && (forall i | 0 <= i < m :: rx.segments[i] == Chunk(Transfer(message), i))
  }

  // The state in which HandleData places the segment.
  function Looked(l: Link, f: Frame): (r: Link)
    requires Shape(l) && f.kind == DATA && Canonical(f)
    ensures Shape(r)
  {
    l.(dup := DupLookup(l.dup, l.timer.now, f.session, f.message).0, rx := Continued(l, f))
  }

  lemma ReadyLooks(l: Link, f: Frame, message: seq<byte>, key: Receiving.Key, total: nat, m: nat)
    requires Shape(l) && Ready(l, message, key, total, m) && Segment(f, message, key, total, m)
    ensures HandleData(l, f) == NewSegment(Looked(l, f), f)
    ensures Prefix(Looked(l, f).rx, message, key, total, m)
    ensures Missing(Looked(l, f).dup, l.timer.now, key.session, key.message)
  {
    hide TxInv, RowsInv, Canonical, DupLookup, NewSegment, Missing, Chunk, Transfer, SegmentCount, Fits, NoneSet,
      NoSegments;
    LookupPrunes(l.dup, l.timer.now, f.session, f.message);
    LookupMisses(l.dup, l.timer.now, f.session, f.message);
    DataFits(f);
    if m == 0 { Receiving.NothingStored(l.rx); }
  }

  // The acknowledgement of a prefix says just how long it is.
  lemma PrefixAck(rx: Reassembly, message: seq<byte>, key: Receiving.Key, total: nat, m: nat)
    requires ReassemblyShape(rx) && Prefix(rx, message, key, total, m) && m < total
    ensures PartialAck(rx) == Frame(ACK, key.session, key.message, m, 0, 0, [])
  {
    hide Bitmap, Chunk, Transfer, FirstClear;
    var c := FirstClear(rx.received, 0, rx.total);
    assert !rx.received[m];
    assert c == m;
    EmptyBitmap(rx.received, m, total, 0);
  }

  lemma {:induction false} EmptyBitmap(received: seq<bool>, m: nat, total: nat, bit: nat)
    requires total <= |received| && bit <= 16
    requires forall i | m < i < |received| :: !received[i]
    ensures Bitmap(received, m, total, bit) == 0
    decreases 16 - bit
  {
    hide Pow2;
    if bit < 16 && m + 1 + bit < total { EmptyBitmap(received, m, total, bit + 1); }
  }

  // A segment that does not complete its message is stored, and acknowledged when one is due.
  lemma NewSegmentMiddle(l: Link, f: Frame)
    requires Shape(l) && f.sequence < l.rx.total && l.rx.count + 1 != l.rx.total && |l.out| < OUT_QUEUE_FRAMES
    ensures var rx := Stored(l.rx, f);
      NewSegment(l, f).0 == if AckDue(l.rx.count + 1, l.window)
                            then l.(rx := rx.(ack := Some(PartialAck(rx))), out := l.out + [Sent(PartialAck(rx))])
                            else l.(rx := rx)
  {
    hide AckDue, PartialAck, Canonical;
    AckFramesCanonical(Stored(l.rx, f));
  }

  lemma ReceiveMiddle(l: Link, f: Frame, message: seq<byte>, key: Receiving.Key, total: nat, m: nat)
    requires Shape(l) && Ready(l, message, key, total, m) && Segment(f, message, key, total, m) && m + 1 < total
      && |l.out| < OUT_QUEUE_FRAMES
    ensures var r := HandleData(l, f).0;
      && Ready(r, message, key, total, m + 1) && r.window == l.window
      && r.out == l.out + (if AckDue(m + 1, l.window)
        then [Sent(Frame(ACK, key.session, key.message, m + 1, 0, 0, []))] else [])
      && (AckDue(m + 1, l.window) ==> r.rx.ack == Some(Frame(ACK, key.session, key.message, m + 1, 0, 0, [])))
  {
    hide TxInv, RxInv, SessionInv, RowsInv, Canonical, DupLookup, HandleData, NewSegment, Missing, Chunk, Transfer,
      SegmentCount, AckDue, Continued, PartialAck;
    ReadyLooks(l, f, message, key, total, m);
    HandleDataInv(l, f);
    var looked := Looked(l, f);
    PrefixAck(Stored(looked.rx, f), message, key, total, m + 1);
    NewSegmentMiddle(looked, f);
  }

  lemma ReceiveLast(l: Link, f: Frame, message: seq<byte>, key: Receiving.Key, total: nat)
    requires Shape(l) && 0 < total && Ready(l, message, key, total, total - 1)
      && Segment(f, message, key, total, total - 1) && |l.out| < OUT_QUEUE_FRAMES
    ensures var r := HandleData(l, f);
      && r.1 == Delivered && r.0.delivery == Delivery(true, false, message) && Inv(r.0)
      && r.0.out == l.out + [Sent(Receiving.Receipt(f))]
  {
    hide TxInv, RxInv, SessionInv, RowsInv, Canonical, DupLookup, HandleData, Missing, Chunk, Transfer, SegmentCount,
      Continued, DupStore, Accepted, ClearRx;
    ReadyLooks(l, f, message, key, total, total - 1);
    HandleDataInv(l, f);
    var stored := Looked(l, f).(rx := Stored(Looked(l, f).rx, f));
    PrefixAccepted(stored, message, key, total);
    AckFramesCanonical(stored.rx);
    Receiving.ReceiptIs(stored.rx, f);
  }

  // A whole prefix is the message.
  lemma PrefixAccepted(l: Link, message: seq<byte>, key: Receiving.Key, total: nat)
    requires Shape(l) && Prefix(l.rx, message, key, total, total) && |message| <= l.cfg.maxMessage
      && SegmentCount(|message|) == Some(total)
    ensures Accepted(l) == Some(message)
  {
    hide Chunk, Transfer, SegmentCount, Assemble, Unwrap, Verified;
    SegmentationIsLossless(message);
    var chunks := Chunks(Transfer(message), total);
    ConcatAgrees(l.rx.segments, chunks, total);
    AssembleIsConcat(l.rx, 0);
    TransferVerifies(message, l.cfg.maxMessage);
    UnwrapIsVerified(Transfer(message), l.cfg.maxMessage, total);
  }

  // ------------------------------------------------------------ replies

  lemma FrameIsSegment(l: Link, message: seq<byte>, i: nat)
    requires Shape(l) && TxInv(l.tx) && i < l.tx.total && l.tx.segments[i] == Chunk(Transfer(message), i)
    ensures Segment(DataFrame(l, i), message, Channel.TxKey(l), l.tx.total, i)
  {
    hide TxInv, Canonical, Chunk, Transfer;
    DataFrameCanonical(l, i);
  }

  // n segments past the end of window j, the next acknowledgement is due when n is nothing or a window.
  lemma DueAfter(j: nat, window: nat, n: nat)
    requires 0 < window && n <= window
    ensures AckDue(j * window + n, window) <==> n == 0 || n == window
  {
    if n < window {
      Divided(j * window + n, window, j, n);
    } else {
      assert window * (j + 1) == j * window + n;
      Divided(j * window + n, window, j + 1, 0);
    }
  }

  // The acknowledgement of a prefix, heard by the sender.
  lemma PrefixMarked(tx: Sender, f: Frame, from: nat)
    requires SenderShape(tx) && from < f.sequence < tx.total && f.value == 0 && f.kind == ACK && tx.base == from
    requires forall i | 0 <= i < MAX_SEGMENTS :: tx.acked[i] <==> i < from
    requires OnAir(tx, from, f.sequence)
    ensures var r := MarkAcked(tx, f);
      && Clean(r, f.sequence) && r.base == f.sequence && r.active == tx.active && r.segments == tx.segments
      && r.total == tx.total && r.message == tx.message
  {
    hide HasBit, FirstClear;
    forall i: nat
      ensures Names(f, i) <==> i < f.sequence
    {
      if f.sequence < i <= f.sequence + 16 { Acks.NoBit(i - f.sequence - 1); }
    }
    var c := MarkAcked(tx, f).base;
    assert !AckedAfter(tx, f)[f.sequence];
    assert c == f.sequence;
  }

  lemma SenderGoesOn(x: Link, message: seq<byte>, from: nat, f: Frame)
    requires Shape(x) && from + x.window < x.tx.total && x.out == []
    requires f == Frame(ACK, x.session.id, x.tx.message, from + x.window, 0, 0, [])
    requires OnWindow(x, message, from)
    ensures var r := HandleAck(x, f).0;
      Sending(r, message, from + x.window) && r.session == x.session && r.window == x.window
        && r.tx.message == x.tx.message
      && r.tx.total == x.tx.total && r.heard == x.heard
  {
    hide TxInv, RxInv, RowsInv, SessionInv, StartOrResume, Chunk, Transfer, SegmentCount, Recompute, MarkAcked,
      WindowRows, Clean;
    PrefixMarked(x.tx, f, from);
    MarkAckedInv(x.tx, f);
    MarkedLinkInv(x, f);
    var marked := x.(tx := MarkAcked(x.tx, f), timer := Recompute(x.timer, x.cfg.airtime, x.window));
    ResumeSending(marked, message);
    ResumeFrame(marked, false);
  }

  lemma SenderFinishes(x: Link, f: Frame)
    requires Shape(x) && x.tx.active && x.out == []
    requires f == Frame(ACK, x.session.id, x.tx.message, x.tx.total, 0, FLAG_ACK_DELIVERED, [])
    ensures var r := HandleAck(x, f).0;
            r.tx.status == Success && !r.tx.active && r.timer.deadline.None? && r.out == []
  {
    hide NoneSet, NoSegments;
  }

  lemma MarkedLinkInv(x: Link, f: Frame)
    requires Inv(x) && TxInv(MarkAcked(x.tx, f))
    ensures Inv(x.(tx := MarkAcked(x.tx, f), timer := Recompute(x.timer, x.cfg.airtime, x.window)))
  {
    hide TxInv, RxInv, RowsInv, AckedAfter, InflightAfter, FirstClear, Recompute;
  }

  // ------------------------------------------------------------ one transfer under way

  /** What is being sent: the message, its key, the window and the number of segments. */
  datatype Task = Task(message: seq<byte>, key: Receiving.Key, window: nat, total: nat)

  // What the last frame heard says, if it is of that kind and key, concerns an earlier segment.
  predicate Older(heard: Option<Heard>, kind: u8, key: Receiving.Key, m: nat) {
    heard.Some? && Codec.Decode(heard.value.raw).Good? ==>
      var f := Codec.Decode(heard.value.raw).frame;
      f.kind == kind && f.session == key.session && f.message == key.message ==> f.sequence < m
  }

  // The end of the window that starts at `from`.
  function End(t: Task, from: nat): nat {
    Least(from + t.window, t.total)
  }

  // The acknowledgement of the first m segments.
  function Reply(t: Task, m: nat): Frame
    requires m <= t.total <= MAX_SEGMENTS
  {
    if m < t.total then Frame(ACK, t.key.session, t.key.message, m, 0, 0, [])
    else Frame(ACK, t.key.session, t.key.message, t.total, 0, FLAG_ACK_DELIVERED, [])
  }

  // The sender of a message, with the window that starts at `from` out of its hands.
  predicate Poised(x: Link, t: Task, from: nat)
    requires Shape(x)
  {
    && from < t.total == x.tx.total && x.window == t.window && Channel.TxKey(x) == t.key
    && Older(x.heard, ACK, t.key, from + 1)
    && OnWindow(x, t.message, from)
  }

  // With the first `from` segments acknowledged and s received, the rest of the window is on its way or in the ring.
  predicate Forth(e: Exchange, t: Task, from: nat, s: nat)
    requires Sound(e)
  {
    && from < t.total == e.x.tx.total && from <= s <= End(t, from)
    && e.toY + e.x.out == Frames(e.x, s, End(t, from)) && e.data + |e.x.out| == End(t, from)
    && Poised(e.x, t, from)
  }

  predicate Received(e: Exchange, t: Task, s: nat)
    requires Sound(e)
  {
    && s <= t.total && e.y.window == t.window && Older(e.y.heard, DATA, t.key, s)
    && (s < t.total ==> Ready(e.y, t.message, t.key, t.total, s))
    && (s == t.total ==> e.y.delivery == Delivery(true, false, t.message) && Inv(e.y))
  }

  // Once the window is received one acknowledgement is on its way or in the ring; before, none.
  predicate Back(e: Exchange, t: Task, a: nat, from: nat, s: nat) {
    && s <= t.total <= MAX_SEGMENTS
    && e.toX + e.y.out == (if s == End(t, from) then [Sent(Reply(t, s))] else [])
    && e.acks + |e.y.out| == a + (if s == End(t, from) then 1 else 0)
    && e.heard == s + a
  }

  // a windows are acknowledged, which is `from` segments, and s segments are received.
  predicate Under(e: Exchange, t: Task, a: nat, from: nat, s: nat)
    requires Sound(e)
  {
    0 < t.window && Back(e, t, a, from, s) && Forth(e, t, from, s) && Received(e, t, s)
  }

  // The message is staged, the transfer ended in KAL_OK, and nothing is left in either direction.
  predicate Finished(e: Exchange, t: Task, acks: nat) {
    && e.x.tx.status == Success && !e.x.tx.active && e.x.timer.deadline.None?
    && e.y.delivery == Delivery(true, false, t.message)
    && e.data == t.total && e.acks == acks && e.heard == t.total + acks
    && e.x.out == e.y.out == e.toX == e.toY == []
  }

  // ------------------------------------------------------------ events at the sender

  lemma FramesSame(l: Link, m: Link, from: nat, end: nat)
    requires Shape(l) && Shape(m) && from <= end <= l.tx.total && m.session == l.session && m.tx == l.tx
    ensures Frames(m, from, end) == Frames(l, from, end)
  {
    hide Shape;
    forall k | 0 <= k < end - from
      ensures Frames(m, from, end)[k] == Frames(l, from, end)[k]
    {
      assert DataFrame(l, from + k) == DataFrame(m, from + k);
    }
  }

  // Changes of clock, ring and repeat guard leave the sender where it is.
  lemma OnWindowKept(l: Link, m: Link, message: seq<byte>, from: nat)
    requires Shape(l) && OnWindow(l, message, from) && Inv(m)
    requires m.session == l.session && m.tx == l.tx && m.window == l.window
    ensures OnWindow(m, message, from)
  {
    hide Inv, Chunk, Transfer, SegmentCount;
  }

  lemma TransmitStep(l: Link)
    requires Inv(l) && l.out != []
    ensures Step(l, Transmit).0 == l.(out := l.out[1..]) && Inv(l.(out := l.out[1..]))
  {
    hide TxInv, RxInv, SessionInv, RowsInv, Shape, Send, Beacon, Cancel, AdvanceTime, Hear, Collect, Reset;
    TakeInv(l, 0);
  }

  lemma WaitStep(l: Link, time: nat)
    requires Inv(l) && !Due(l, time)
    ensures var r := Step(l, Tick(time)).0; Inv(r) && r == l.(timer := r.timer) && r.timer.deadline == l.timer.deadline
    ensures Step(l, Tick(time)).0.timer.now >= l.timer.now
  {
    hide TxInv, RxInv, SessionInv, RowsInv, Shape, Send, Beacon, Cancel, Hear, TakeRow, Collect, Reset;
    AdvanceTimeInv(l, time);
  }

  // The sender's side after an event that moves frames from its ring to the channel or passes time.
  lemma PoisedKept(l: Link, m: Link, t: Task, from: nat)
    requires Shape(l) && Inv(m) && m.session == l.session && m.tx == l.tx && m.window == l.window && m.heard == l.heard
    requires Poised(l, t, from)
    ensures Poised(m, t, from)
  {
    hide Older, OnWindow, Inv;
    InvShape(m);
    OnWindowKept(l, m, t.message, from);
  }

  lemma PoisedInv(l: Link, t: Task, from: nat)
    requires Shape(l) && Poised(l, t, from)
    ensures Inv(l) && TxInv(l.tx) && l.tx.active
    ensures forall i | 0 <= i < l.tx.total :: l.tx.segments[i] == Chunk(Transfer(t.message), i)
  {
    hide Older, OnWindow, Inv, Chunk, Transfer;
    OnWindowInv(l, t.message, from);
  }

  lemma ForthMoved(e: Exchange, r: Exchange, t: Task, from: nat, s: nat)
    requires Sound(e) && Sound(r) && Inv(r.x)
    requires r.x.session == e.x.session && r.x.tx == e.x.tx && r.x.window == e.x.window && r.x.heard == e.x.heard
    requires r.toY + r.x.out == e.toY + e.x.out && r.data + |r.x.out| == e.data + |e.x.out|
    requires Forth(e, t, from, s)
    ensures Forth(r, t, from, s)
  {
    hide Inv, Poised, Frames, Shape;
    PoisedKept(e.x, r.x, t, from);
    FramesSame(e.x, r.x, s, End(t, from));
  }

  lemma ForthInv(e: Exchange, t: Task, from: nat, s: nat)
    requires Sound(e) && Forth(e, t, from, s)
    ensures Inv(e.x)
  {
    hide Inv, Poised, Frames, Shape;
    PoisedInv(e.x, t, from);
  }

  lemma SpeakForth(e: Exchange, t: Task, a: nat, from: nat, s: nat)
    requires Sound(e) && Under(e, t, a, from, s)
    ensures Under(Next(e, Speak(true)), t, a, from, s)
  {
    hide Step, Inv, Forth, Shape;
    if e.x.out != [] {
      var r := Next(e, Speak(true));
      ForthInv(e, t, from, s);
      TransmitStep(e.x);
      assert e.toY + [e.x.out[0]] + e.x.out[1..] == e.toY + e.x.out;
      ForthMoved(e, r, t, from, s);
    }
  }

  lemma OnWindowInv(l: Link, message: seq<byte>, from: nat)
    requires Shape(l) && OnWindow(l, message, from)
    ensures Inv(l) && TxInv(l.tx) && l.tx.active
    ensures forall i | 0 <= i < l.tx.total :: l.tx.segments[i] == Chunk(Transfer(message), i)
  {
    hide TxInv, RxInv, SessionInv, RowsInv;
  }

  lemma WaitForth(e: Exchange, t: Task, a: nat, from: nat, s: nat, time: nat)
    requires Sound(e) && Under(e, t, a, from, s) && !Due(e.x, time)
    ensures Under(Next(e, Wait(true, time)), t, a, from, s)
  {
    hide Step, Inv, Forth, Shape, Due;
    var r := Next(e, Wait(true, time));
    ForthInv(e, t, from, s);
    WaitStep(e.x, time);
    ForthMoved(e, r, t, from, s);
  }

  // A frame that is not the one heard last gets past the repeat guard.
  lemma HearsNext(l: Link, f: Frame, key: Receiving.Key, m: nat)
    requires Inv(l) && Canonical(f) && Older(l.heard, f.kind, key, m)
    requires f.session == key.session && f.message == key.message && f.sequence >= m
    ensures Inv(Noted(l, Codec.Encode(f))) && Older(Noted(l, Codec.Encode(f)).heard, f.kind, key, f.sequence + 1)
    ensures Step(l, Receive(Codec.Encode(f))) == HandleFrame(Noted(l, Codec.Encode(f)), f)
  {
    hide TxInv, RxInv, SessionInv, RowsInv, Canonical, Codec.Decode, HandleFrame, Shape, Step, Hear;
    Codec.DecodeEncode(f);
    HearsEncoded(l, f);
    NotedInv(l, Some(Heard(Codec.Encode(f), l.timer.now)));
    Receiving.StepIsHear(l, Receive(Codec.Encode(f)));
  }

  // The transfer ended in KAL_OK.
  predicate Ended(x: Link) {
    x.tx.status == Success && !x.tx.active && x.timer.deadline.None? && x.out == []
  }

  // The next window is in the ring.
  predicate Turned(x: Link, t: Task, from: nat)
    requires Shape(x)
  {
    && from < t.total == x.tx.total
    && x.out == Frames(x, from, End(t, from)) && Poised(x, t, from)
  }

  // The sender hears the acknowledgement of its window.
  lemma HearsReply(x: Link, f: Frame, t: Task, from: nat, s: nat)
    requires Shape(x) && x.out == [] && from < s == End(t, from) && t.total <= MAX_SEGMENTS && f == Reply(t, s)
    requires Poised(x, t, from)
    ensures Canonical(f)
    ensures var r := Step(x, Receive(Codec.Encode(f))).0; if s < t.total then Turned(r, t, s) else Ended(r)
  {
    hide Step, Inv, Ready, Older, Frames, Shape, Canonical, HandleAck, OnWindow, Sending, Chunk, Transfer, Codec.Encode,
      HandleFrame, HandleHello, HandleHelloAck, HandleData, HandleBeacon;
    OnWindowInv(x, t.message, from);
    ReplyCanonical(t, s);
    HearsNext(x, f, t.key, from + 1);
    var noted := Noted(x, Codec.Encode(f));
    OnWindowKept(x, noted, t.message, from);
    Handled(noted, f);
    if s < t.total {
      SenderGoesOn(noted, t.message, from, f);
      SendingParts(HandleAck(noted, f).0, t.message, s);
    } else {
      SenderFinishes(noted, f);
    }
  }

  lemma ListenForth(e: Exchange, t: Task, a: nat, from: nat, s: nat)
    requires Sound(e) && Under(e, t, a, from, s) && e.toX != []
    ensures var r := Next(e, Listen(true)); if s < t.total then Under(r, t, a + 1, s, s) else Finished(r, t, a + 1)
    ensures s == End(t, from)
  {
    hide Step, Inv, Ready, Older, Frames, Shape, Canonical, Poised, Reply;
    assert s == End(t, from) && e.toX == [Sent(Reply(t, s))]
      && e.y.out == [] by { OneLeft(e.toX, e.y.out, Sent(Reply(t, s))); }
    assert e.toY == [] && e.x.out == [] by { NoneLeft(e.toY, e.x.out); }
    HearsReply(e.x, Reply(t, s), t, from, s);
    FramesLength(Next(e, Listen(true)).x, t, s);
  }

  lemma FramesLength(x: Link, t: Task, from: nat)
    requires Shape(x)
    ensures from < t.total == x.tx.total && x.out == Frames(x, from, End(t, from)) ==>
              |x.out| == End(t, from) - from && [] + x.out == x.out
  {
    hide Frames, Shape;
  }

  lemma SendingParts(l: Link, message: seq<byte>, from: nat)
    requires Shape(l) && Sending(l, message, from)
    ensures OnWindow(l, message, from) && from < l.tx.total
    ensures l.out == Frames(l, from, Least(from + l.window, l.tx.total)) && [] + l.out == l.out
    ensures |l.out| == Least(from + l.window, l.tx.total) - from
  {
    hide Inv, Chunk, Transfer, DataFrame, SegmentCount, Frames;
  }

  lemma OneLeft(a: seq<Row>, b: seq<Row>, row: Row)
    requires a != [] && (a + b == [row] || a + b == [])
    ensures a == [row] && b == []
  {
    assert |a + b| == |a| + |b|;
    assert (a + b)[0] == a[0];
  }

  lemma NoneLeft(a: seq<Row>, b: seq<Row>)
    requires |a + b| == 0
    ensures a == [] && b == []
  {
  }

  lemma ReplyCanonical(t: Task, m: nat)
    requires 1 <= m <= t.total <= MAX_SEGMENTS
    ensures Canonical(Reply(t, m)) && Reply(t, m).kind == ACK
  {
  }

  // ------------------------------------------------------------ events at the receiver

  // The receiver's side after an event that changes its ring, its clock or its repeat guard.
  lemma ReadyKept(l: Link, m: Link, t: Task, s: nat)
    requires Shape(l) && Inv(m) && l.timer.now <= m.timer.now
    requires m.session == l.session && m.rx == l.rx && m.dup == l.dup && m.delivery == l.delivery && m.cfg == l.cfg
    requires Ready(l, t.message, t.key, t.total, s)
    ensures Ready(m, t.message, t.key, t.total, s)
  {
    hide TxInv, RxInv, SessionInv, RowsInv, Chunk, Transfer, SegmentCount, Shape;
    InvShape(m);
  }

  lemma ReceivedInv(e: Exchange, t: Task, s: nat)
    requires Sound(e) && Received(e, t, s)
    ensures Inv(e.y)
  {
    hide TxInv, RxInv, SessionInv, RowsInv, Missing, Older, Shape, Chunk, Transfer;
  }

  lemma ReceivedKept(e: Exchange, r: Exchange, t: Task, s: nat)
    requires Sound(e) && Inv(r.y) && Sound(r) && e.y.timer.now <= r.y.timer.now
    requires r.y.session == e.y.session && r.y.rx == e.y.rx && r.y.dup == e.y.dup && r.y.delivery == e.y.delivery
    requires r.y.cfg == e.y.cfg && r.y.window == e.y.window && r.y.heard == e.y.heard
    requires Received(e, t, s)
    ensures Received(r, t, s)
  {
    hide Ready, Older, Inv, Shape;
    if s < t.total { ReadyKept(e.y, r.y, t, s); }
  }

  lemma ForthKept(e: Exchange, r: Exchange, t: Task, from: nat, s: nat)
    requires Sound(e) && Sound(r) && r.x == e.x && r.toY == e.toY && r.data == e.data && Forth(e, t, from, s)
    ensures Forth(r, t, from, s)
  {
    hide Poised, Frames, Shape;
  }

  lemma SpeakBack(e: Exchange, t: Task, a: nat, from: nat, s: nat)
    requires Sound(e) && Under(e, t, a, from, s)
    ensures Under(Next(e, Speak(false)), t, a, from, s)
  {
    hide Step, Inv, Received, Forth, Shape, Reply;
    if e.y.out != [] {
      var r := Next(e, Speak(false));
      ReceivedInv(e, t, s);
      TransmitStep(e.y);
      ReceivedKept(e, r, t, s);
      ForthKept(e, r, t, from, s);
      assert e.toX + [e.y.out[0]] + e.y.out[1..] == e.toX + e.y.out;
    }
  }

  lemma WaitBack(e: Exchange, t: Task, a: nat, from: nat, s: nat, time: nat)
    requires Sound(e) && Under(e, t, a, from, s) && !Due(e.y, time)
    ensures Under(Next(e, Wait(false, time)), t, a, from, s)
  {
    hide Step, Inv, Received, Forth, Shape, Reply, Due;
    var r := Next(e, Wait(false, time));
    ReceivedInv(e, t, s);
    WaitStep(e.y, time);
    ReceivedKept(e, r, t, s);
    ForthKept(e, r, t, from, s);
  }

  // The receiver with one more segment, and the acknowledgement it owes if this one ends the window.
  predicate Took(y: Link, t: Task, from: nat, s: nat)
    requires Shape(y)
  {
    && s <= t.total <= MAX_SEGMENTS && y.window == t.window && Older(y.heard, DATA, t.key, s)
    && y.out == (if s == End(t, from) then [Sent(Reply(t, s))] else [])
    && (s < t.total ==> Ready(y, t.message, t.key, t.total, s))
    && (s == End(t, from) && s < t.total ==> y.rx.ack == Some(Reply(t, s)))
    && (s == t.total ==> y.delivery == Delivery(true, false, t.message) && Inv(y))
  }

  lemma DueAtEnd(t: Task, a: nat, s: nat)
    requires 0 < t.window && a * t.window <= s < End(t, a * t.window) && s + 1 < t.total
    ensures AckDue(s + 1, t.window) <==> s + 1 == End(t, a * t.window)
  {
    DueAfter(a, t.window, s + 1 - a * t.window);
  }

  lemma HearsSegment(y: Link, f: Frame, t: Task, a: nat, from: nat, s: nat)
    requires Shape(y) && y.out == [] && y.window == t.window && 0 < t.window && from == a * t.window
      && from <= s < End(t, from)
    requires t.total <= MAX_SEGMENTS && Segment(f, t.message, t.key, t.total, s) && Older(y.heard, DATA, t.key, s)
    requires Ready(y, t.message, t.key, t.total, s)
    ensures Took(Step(y, Receive(Codec.Encode(f))).0, t, from, s + 1)
  {
    hide Step, Inv, Ready, Older, Shape, Canonical, HandleData, Chunk, Transfer, Codec.Encode, HandleFrame, AckDue,
      HandleHello, HandleHelloAck, HandleAck, HandleBeacon;
    ReadyInv(y, t, s);
    HearsNext(y, f, t.key, s);
    var noted := Noted(y, Codec.Encode(f));
    ReadyKept(y, noted, t, s);
    Handled(noted, f);
    if s + 1 < t.total {
      DueAtEnd(t, a, s);
      ReceiveMiddle(noted, f, t.message, t.key, t.total, s);
      HeardKept(noted, f);
    } else {
      ReceiveLast(noted, f, t.message, t.key, t.total);
      HeardKept(noted, f);
      EndsLast(t, from, s);
    }
  }

  lemma EndsLast(t: Task, from: nat, s: nat)
    requires s < End(t, from) && s + 1 == t.total
    ensures End(t, from) == t.total
  {
  }

  lemma ReadyInv(y: Link, t: Task, s: nat)
    requires Shape(y) && Ready(y, t.message, t.key, t.total, s)
    ensures Inv(y)
  {
    hide TxInv, RxInv, SessionInv, RowsInv, Missing, Chunk, Transfer;
  }

  // handle_data touches neither the repeat guard nor the window.
  lemma HeardKept(l: Link, f: Frame)
    requires Shape(l) && f.kind == DATA && Canonical(f)
    ensures HandleData(l, f).0.heard == l.heard && HandleData(l, f).0.window == l.window
  {
    hide Canonical, DupLookup, StoreSegment, NoneSet, NoSegments;
    var looked := l.(dup := DupLookup(l.dup, l.timer.now, f.session, f.message).0);
    StoreSegmentHeard(looked, f);
    StoreSegmentHeard(looked.(rx := ClearRx(l.rx)), f);
  }

  lemma StoreSegmentHeard(l: Link, f: Frame)
    requires Shape(l) && f.kind == DATA && Canonical(f)
    ensures StoreSegment(l, f).0.heard == l.heard && StoreSegment(l, f).0.window == l.window
  {
    hide Canonical, DupStore, PartialAck, AckDue, Accepted, Stored, NoneSet, NoSegments;
  }

  lemma ListenBack(e: Exchange, t: Task, a: nat, from: nat, s: nat)
    requires Sound(e) && Under(e, t, a, from, s) && from == a * t.window && e.toY != []
    ensures Under(Next(e, Listen(false)), t, a, from, s + 1)
  {
    hide Step, Inv, Ready, Older, Shape, Canonical, Poised, Frames, Reply, Segment, Chunk, Transfer;
    var f := DataFrame(e.x, s);
    PoisedInv(e.x, t, from);
    HeadOfFrames(e, t, from, s);
    PoisedSegment(e.x, t, from, s);
    NoneLeft(e.toX, e.y.out);
    HearsSegment(e.y, f, t, a, from, s);
    var r := Next(e, Listen(false));
    assert [] + r.y.out == r.y.out;
  }

  lemma PoisedSegment(x: Link, t: Task, from: nat, s: nat)
    requires Shape(x) && s < t.total && Poised(x, t, from)
    ensures Segment(DataFrame(x, s), t.message, t.key, t.total, s) && Canonical(DataFrame(x, s))
  {
    hide Inv, TxInv, Older, OnWindow, Segment, Chunk, Transfer, Canonical;
    OnWindowInv(x, t.message, from);
    FrameIsSegment(x, t.message, s);
    DataFrameCanonical(x, s);
  }

  // What is on its way to the receiver starts with segment s.
  lemma HeadOfFrames(e: Exchange, t: Task, from: nat, s: nat)
    requires Sound(e) && e.toY != [] && Forth(e, t, from, s)
    ensures s < End(t, from) && e.toY[0] == Sent(DataFrame(e.x, s))
    ensures e.toY[1..] + e.x.out == Frames(e.x, s + 1, End(t, from))
  {
    hide Poised, DataFrame, Shape;
    var all := Frames(e.x, s, End(t, from));
    assert |e.toY + e.x.out| > 0 && (e.toY + e.x.out)[0] == e.toY[0];
    FramesFirst(e.x, e.x, s, End(t, from));
    assert e.toY[1..] + e.x.out == (e.toY + e.x.out)[1..] == all[1..];
  }

  // ------------------------------------------------------------ the whole message

  // ceil(total / window).
  predicate Windows(t: Task, acks: nat) {
    0 < acks && (acks - 1) * t.window < t.total <= acks * t.window
  }

  lemma WindowsUnique(t: Task, acks: nat, a: nat)
    requires Windows(t, acks) && a * t.window < t.total
    ensures a < acks && (t.total <= a * t.window + t.window ==> acks == a + 1)
  {
    if acks <= a {
      Monotone(acks, a, t.window);
    } else if acks > a + 1 {
      Monotone(a + 1, acks - 1, t.window);
    }
  }

  lemma Monotone(a: nat, b: nat, m: nat)
    requires a <= b
    ensures a * m <= b * m
  {
    assert b * m == a * m + (b - a) * m;
    assert (b - a) * m >= 0;
  }

  // A transfer is under way.
  ghost predicate Going(e: Exchange, t: Task)
    requires Sound(e)
  {
    exists a: nat, from: nat, s: nat :: from == a * t.window && Under(e, t, a, from, s)
  }

  lemma GoingWith(e: Exchange, t: Task, a: nat, from: nat, s: nat)
    requires Sound(e) && from == a * t.window && Under(e, t, a, from, s)
    ensures Going(e, t)
  {
    hide Under, Shape;
  }

  lemma NextUnder(e: Exchange, t: Task, a: nat, from: nat, s: nat, event: Event, acks: nat)
    requires Sound(e) && from == a * t.window && Windows(t, acks) && Early(e, event)
    requires Under(e, t, a, from, s)
    ensures Going(Next(e, event), t) || Finished(Next(e, event), t, acks)
  {
    hide Under, Step, Shape, Due, Canonical, Inv, Finished, Going, Next, Windows;
    var r := Next(e, event);
    match event
    case Speak(true) => SpeakForth(e, t, a, from, s); GoingWith(r, t, a, from, s);
    case Speak(false) => SpeakBack(e, t, a, from, s); GoingWith(r, t, a, from, s);
    case Wait(true, time) => WaitForth(e, t, a, from, s, time); GoingWith(r, t, a, from, s);
    case Wait(false, time) => WaitBack(e, t, a, from, s, time); GoingWith(r, t, a, from, s);
    case Listen(true) => ListenForthGoes(e, t, a, from, s, acks);
    case Listen(false) => ListenBackGoes(e, t, a, from, s);
  }

  lemma ListenForthGoes(e: Exchange, t: Task, a: nat, from: nat, s: nat, acks: nat)
    requires Sound(e) && from == a * t.window && Windows(t, acks)
    requires Under(e, t, a, from, s)
    ensures Going(Next(e, Listen(true)), t) || Finished(Next(e, Listen(true)), t, acks)
  {
    hide Under, Step, Shape, Canonical, Inv, Finished, Going, Windows;
    var r := Next(e, Listen(true));
    UnderBounds(e, t, a, from, s);
    if Audible(e.toX) {
      ListenForth(e, t, a, from, s);
      WindowsUnique(t, acks, a);
      if s < t.total { GoingWith(r, t, a + 1, s, s); }
    } else {
      GoingWith(e, t, a, from, s);
    }
  }

  lemma ListenBackGoes(e: Exchange, t: Task, a: nat, from: nat, s: nat)
    requires Sound(e) && from == a * t.window
    requires Under(e, t, a, from, s)
    ensures Going(Next(e, Listen(false)), t)
  {
    hide Under, Step, Shape, Canonical, Inv, Going;
    if Audible(e.toY) {
      ListenBack(e, t, a, from, s);
      GoingWith(Next(e, Listen(false)), t, a, from, s + 1);
    } else {
      GoingWith(e, t, a, from, s);
    }
  }

  lemma UnderBounds(e: Exchange, t: Task, a: nat, from: nat, s: nat)
    requires Sound(e) && Under(e, t, a, from, s)
    ensures from < t.total && s <= t.total && e.data <= t.total && e.acks <= a + 1 && e.heard == s + a
    ensures e.data + e.acks + e.heard < 2 * (t.total + a + 1)
  {
    hide Poised, Received, Frames, Reply, Shape;
  }

  lemma FinishedStays(e: Exchange, t: Task, acks: nat, event: Event)
    requires Sound(e) && Early(e, event) && Finished(e, t, acks)
    ensures Finished(Next(e, event), t, acks)
  {
    hide Shape, Canonical, Send, Beacon, Cancel, Hear, Collect, Reset, TakeRow;
  }

  // Frame events so far: frames put on air and frames heard.
  function Work(e: Exchange): nat {
    e.data + e.acks + e.heard
  }

  // The event moves a frame.
  predicate Moves(e: Exchange, event: Event) {
    match event
    case Speak(true) => e.x.out != []
    case Speak(false) => e.y.out != []
    case Listen(true) => Audible(e.toX)
    case Listen(false) => Audible(e.toY)
    case Wait(_, _) => false
  }

  // The events of a run that move one.
  function Movements(e: Exchange, events: seq<Event>): nat
    requires Sound(e)
    decreases |events|
  {
    if events == [] then 0
    else
      var n := |events| - 1;
      Movements(e, events[..n]) + (if Moves(Play(e, events[..n]), events[n]) then 1 else 0)
  }

  // The counters count them.
  lemma {:induction false} WorkCounts(e: Exchange, events: seq<Event>)
    requires Sound(e)
    ensures Work(Play(e, events)) == Work(e) + Movements(e, events)
    decreases |events|
  {
    hide Shape, Canonical, Step;
    if events != [] { WorkCounts(e, events[..|events| - 1]); }
  }

  // What is on its way can be heard.
  lemma ReachesY(e: Exchange, t: Task, from: nat, s: nat)
    requires Sound(e) && e.toY != [] && Forth(e, t, from, s)
    ensures Audible(e.toY)
  {
    hide Poised, Frames, Shape, Canonical, DataFrame;
    HeadOfFrames(e, t, from, s);
    PoisedSegment(e.x, t, from, s);
  }

  lemma ReachesX(e: Exchange, t: Task, a: nat, from: nat, s: nat)
    requires e.y.out == [] && 0 < s && Back(e, t, a, from, s)
    ensures e.toX == [] || Audible(e.toX)
    ensures s == End(t, from) ==> e.toX != []
  {
    hide Reply, Canonical;
    assert e.toX + e.y.out == e.toX;
    if s == End(t, from) { ReplyCanonical(t, s); }
  }

  // There is always a frame to move.
  lemma SomethingMoves(e: Exchange, t: Task, a: nat, from: nat, s: nat)
    requires Sound(e) && Under(e, t, a, from, s)
    ensures exists event :: Moves(e, event)
  {
    hide Poised, Received, Back, Shape, Audible, Frames;
    if e.x.out != [] {
      assert Moves(e, Speak(true));
    } else if e.y.out != [] {
      assert Moves(e, Speak(false));
    } else if e.toY != [] {
      ReachesY(e, t, from, s);
      assert Moves(e, Listen(false));
    } else {
      assert s == End(t, from);
      ReachesX(e, t, a, from, s);
      assert Moves(e, Listen(true));
    }
  }

  lemma {:induction false} PlayGoes(e: Exchange, t: Task, events: seq<Event>, acks: nat)
    requires Sound(e) && Timely(e, events) && Windows(t, acks) && Going(e, t)
    ensures Going(Play(e, events), t) || Finished(Play(e, events), t, acks)
    decreases |events|
  {
    hide Next, Shape, Finished, Under, Early, Windows;
    if events != [] {
      var n := |events| - 1;
      PlayGoes(e, t, events[..n], acks);
      var before := Play(e, events[..n]);
      if Going(before, t) {
        var a: nat, from: nat, s: nat :| from == a * t.window && Under(before, t, a, from, s);
        NextUnder(before, t, a, from, s, events[n], acks);
      } else {
        FinishedStays(before, t, acks, events[n]);
      }
    }
  }

  lemma GoingBounds(e: Exchange, t: Task, acks: nat)
    requires Sound(e) && Windows(t, acks) && Going(e, t)
    ensures e.data <= t.total && e.acks <= acks && Work(e) < 2 * (t.total + acks)
    ensures exists event :: Moves(e, event)
  {
    hide Under, Shape, Windows, Moves;
    var a: nat, from: nat, s: nat :| from == a * t.window && Under(e, t, a, from, s);
    UnderBounds(e, t, a, from, s);
    WindowsUnique(t, acks, a);
    SomethingMoves(e, t, a, from, s);
  }

  // What kal_send of the message at x starts.
  function Assignment(x: Link, message: seq<byte>): Task
    requires |message| <= MAX_MESSAGE_BYTES
  {
    Task(message, Receiving.Key(x.session.id, x.session.nextMessage), x.window, SegmentCount(|message|).value)
  }

  function Outset(x: Link, y: Link, message: seq<byte>): (e: Exchange)
    requires Shape(x) && Shape(y)
    ensures Sound(e)
  {
    Exchange(Send(x, message, None).0, y, [], [], 0, 0, 0)
  }

  // An open idle sender and a receiver of its session that is idle, does not remember the key and agrees on the window;
  // neither has just heard a frame of a transfer under that key.
  predicate Prepared(x: Link, y: Link, message: seq<byte>)
    requires Shape(x) && Shape(y) && |message| <= MAX_MESSAGE_BYTES
  {
    var key := Receiving.Key(x.session.id, x.session.nextMessage);
    && x.session.open && !x.tx.active && x.out == [] && |message| <= x.cfg.maxMessage
    && y.session.open && y.session.id == x.session.id && !y.rx.active && !y.delivery.ready && y.out == []
    && |message| <= y.cfg.maxMessage && DupLookup(y.dup, y.timer.now, key.session, key.message).1.None?
    && x.window == y.window && Older(x.heard, ACK, key, 0) && Older(y.heard, DATA, key, 0)
  }

  lemma SendGoes(x: Link, y: Link, message: seq<byte>)
    requires Inv(x) && Inv(y) && |message| <= MAX_MESSAGE_BYTES && Prepared(x, y, message)
    ensures Going(Outset(x, y, message), Assignment(x, message))
  {
    hide TxInv, RxInv, RowsInv, SessionInv, Send, SegmentCount, Missing, DupLookup, Frames, Chunk, Transfer;
    var t, e := Assignment(x, message), Outset(x, y, message);
    SendStarts(x, message);
    LookupMisses(y.dup, y.timer.now, x.session.id, x.session.nextMessage);
    SendHeard(x, message);
    SendingParts(e.x, message, 0);
    SenderTotal(e.x, message);
    GoingWith(e, t, 0, 0, 0);
  }

  lemma SendHeard(l: Link, message: seq<byte>)
    requires Shape(l) && l.session.open
    ensures Send(l, message, None).0.heard == l.heard
  {
    hide Load, StartOrResume, Shape;
    if |message| <= l.cfg.maxMessage && !l.tx.active {
      Timers.LoadKeeps(l, message);
      ResumeFrame(Load(l, message), false);
    }
  }

  lemma SenderTotal(l: Link, message: seq<byte>)
    requires Shape(l) && OnWindow(l, message, 0)
    ensures SegmentCount(|message|) == Some(l.tx.total)
  {
    hide Inv, Chunk, Transfer, SegmentCount;
  }

  /** On an in-order lossless channel with agreed window w, an idle receiver with an empty ring and no deadline
      expiring, whatever the order of transmissions, receptions and waits: kal_send of a message of n segments never
      puts more than n DATA frames and K = ceil(n / w) acknowledgements on air. As long as fewer than 2 (n + K) frame
      events have happened some frame can move; when 2 (n + K) have, and only then, the message is staged, the transfer
      has ended in KAL_OK, and exactly n DATA frames and K acknowledgements were sent. */
  lemma LosslessCompletion(x: Link, y: Link, message: seq<byte>, acks: nat, events: seq<Event>)
    requires Inv(x) && Inv(y) && |message| <= MAX_MESSAGE_BYTES && Prepared(x, y, message)
    requires Windows(Assignment(x, message), acks) && Timely(Outset(x, y, message), events)
    ensures var t, e := Assignment(x, message), Play(Outset(x, y, message), events);
      && e.data <= t.total && e.acks <= acks && Work(e) <= 2 * (t.total + acks)
      && (if Work(e) < 2 * (t.total + acks) then exists event :: Moves(e, event) else Finished(e, t, acks))
      && Work(e) == Movements(Outset(x, y, message), events)
  {
    hide TxInv, RxInv, RowsInv, SessionInv, Shape, Send, SegmentCount, Prepared, Play, Timely, Going, Windows, Moves;
    var t := Assignment(x, message);
    var e := Play(Outset(x, y, message), events);
    SendGoes(x, y, message);
    WorkCounts(Outset(x, y, message), events);
    PlayGoes(Outset(x, y, message), t, events, acks);
    if Going(e, t) { GoingBounds(e, t, acks); }
  }
}
