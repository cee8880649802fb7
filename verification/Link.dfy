/**
  struct kal_link (src/kal_link.c): the state groups, fixed buffers and handlers of one endpoint, each method proved
  to compute its function of LinkSpec on the value the object represents.
 */
module LinkMachine {
  import opened Bytes
  import opened Wire
  import opened Spec = LinkSpec
  import Acks
  import Codec
  import Sha256

  // The "transmit" and "receive" groups of the struct without their buffers.
  datatype TxControl = TxControl(active: bool, started: bool, status: Result, message: u16, total: nat, base: nat,
    retries: nat)
  datatype RxControl = RxControl(active: bool, session: u32, message: u16, total: nat, count: nat, ack: Option<Frame>)

  const IDLE_RX := RxControl(false, 0, 0, 0, 0, None)

  class Link {
    const cfg: Config
    var window: nat
    var session: Session
    var timer: Timer
    var tx: TxControl
    const txSegments: array<seq<byte>>
    const txAcked: array<bool>
    const txInflight: array<bool>
    var rx: RxControl
    const rxReceived: array<bool>
    const rxSegments: array<seq<byte>>
    const dupCache: array<DupEntry>
    var delivery: Delivery
    const outRows: array<Row>
    var outHead: nat
    var outCount: nat
    var heard: Option<Heard>
    var cancelSeen: bool

    // ------------------------------------------------------------ representation

    ghost function Buffers(): set<object> {
      {txSegments, txAcked, txInflight, rxReceived, rxSegments, dupCache, outRows}
    }

    ghost predicate Layout()
      reads `outHead, `outCount
    {
      && outRows.Length == OUT_QUEUE_FRAMES && outHead < OUT_QUEUE_FRAMES && outCount <= OUT_QUEUE_FRAMES
      && txAcked != txInflight && txAcked != rxReceived && txInflight != rxReceived && txSegments != rxSegments
    }

    // The ring as a queue, oldest row first.
    ghost function Rows(): seq<Row>
      requires Layout()
      reads `outHead, `outCount, outRows
    {
      if outHead + outCount <= OUT_QUEUE_FRAMES then outRows[outHead..outHead + outCount]
      else outRows[outHead..] + outRows[..outHead + outCount - OUT_QUEUE_FRAMES]
    }

    ghost function Tx(): Sender
      reads `tx, txSegments, txAcked, txInflight
    {
      Sender(tx.active, tx.started, tx.status, tx.message, tx.total, tx.base, tx.retries,
             txSegments[..], txAcked[..], txInflight[..])
    }

    ghost function Rx(): Reassembly
      reads `rx, rxReceived, rxSegments
    {
      Reassembly(rx.active, rx.session, rx.message, rx.total, rx.count, rxReceived[..], rxSegments[..], rx.ack)
    }

    ghost function State(): Spec.Link
      requires Layout()
      reads this, Buffers()
    {
      Spec.Link(cfg, window, session, timer, Tx(), Rx(), dupCache[..], delivery, Rows(), heard, cancelSeen)
    }

    ghost predicate Valid()
      reads this, Buffers()
    {
      Layout() && Shape(State())
    }

    lemma Sizes()
      requires Valid()
      ensures txAcked.Length == txInflight.Length == txSegments.Length == rxReceived.Length == rxSegments.Length
        == MAX_SEGMENTS
      ensures tx.base <= tx.total <= MAX_SEGMENTS && rx.total <= MAX_SEGMENTS && 0 < window
        && dupCache.Length == DUP_CACHE_ENTRIES
      ensures cfg.maxMessage <= MAX_MESSAGE_BYTES && |session.challenge| == CHALLENGE_BYTES
      ensures cfg.profile < PROFILE_COUNT && window <= MAX_WINDOW
    {
    }

    // ------------------------------------------------------------ lifecycle

    /** kal_link_create, after its options are normalised. */
    constructor (cfg: Config, window: nat)
      requires ValidConfig(cfg, window)
      ensures Valid() && fresh(Buffers()) && State() == Initial(cfg, window)
    {
      this.cfg := cfg;
      this.window := window;
      session := Session(false, false, 0, ZeroChallenge(), FirstMessage(cfg.role), None, 0);
      timer := Spec.Recompute(Timer(0, None, 0, 0, 0), cfg.airtime, window);
      tx := TxControl(false, false, Success, 0, 0, 0, 0);
      txSegments := new seq<byte>[94](_ => []);
      txAcked := new bool[94](_ => false);
      txInflight := new bool[94](_ => false);
      rx := IDLE_RX;
      rxReceived := new bool[94](_ => false);
      rxSegments := new seq<byte>[94](_ => []);
      dupCache := new DupEntry[8](_ => Vacant);
      delivery := Delivery(false, false, []);
      outRows := new Row[32](_ => Blank);
      outHead, outCount := 0, 0;
      heard := None;
      cancelSeen := false;
      new;
      Cleared(txSegments, txAcked);
      Cleared(rxSegments, txInflight);
      Cleared(rxSegments, rxReceived);
      assert dupCache[..] == NoDuplicates();
    }

    // ------------------------------------------------------------ helpers

    /** recompute_timeouts */
    method Recompute(inFlight: nat)
      requires Valid()
      modifies this
      ensures Valid() && State() == old(State()).(timer := Spec.Recompute(old(timer), cfg.airtime, inFlight))
    {
      var flight := if inFlight == 0 then 1 else inFlight;
      var base := cfg.airtime * flight + cfg.airtime;
      AirtimesIsProduct(cfg.airtime, flight);
      Division(base, 4);
      base := base + base / 4;
      if base == 0 {
        base := 1;
      }
      timer := timer.(base := base, ceiling := base * TIMEOUT_CEILING_MULT, timeout := base);
    }

    /** queue_encoded */
    method QueueEncoded(row: Row) returns (queued: bool)
      requires Valid()
      modifies this, outRows
      ensures Valid() && State() == QueueRow(old(State()), row) && queued == (|old(State()).out| < OUT_QUEUE_FRAMES)
    {
      assert |Rows()| == outCount;
      if outCount >= OUT_QUEUE_FRAMES {
        return false;
      }
      ghost var before := Rows();
      PushRow(row);
      return true;
    }

    method PushRow(row: Row)
      requires Layout() && outCount < OUT_QUEUE_FRAMES
      modifies this`outCount, outRows
      ensures Layout() && Rows() == old(Rows()) + [row]
    {
      ghost var before := Rows();
      var slot := (outHead + outCount) % OUT_QUEUE_FRAMES;
      assert slot == if outHead + outCount < OUT_QUEUE_FRAMES then outHead + outCount
        else outHead + outCount - OUT_QUEUE_FRAMES;
      outRows[slot] := row;
      outCount := outCount + 1;
      assert forall k | 0 <= k < |before| :: Rows()[k] == before[k];
      assert Rows()[|before|] == row;
    }

    /** queue_frame */
    method QueueFrame(f: Frame) returns (queued: bool)
      requires Valid()
      modifies this, outRows
      ensures Valid() && State() == Spec.QueueFrame(old(State()), f).0 && queued == Spec.QueueFrame(old(State()), f).1
    {
      hide Validate;
      assert |Rows()| == outCount;
      if outCount >= OUT_QUEUE_FRAMES || Validate(f) != Ok {
        return false;
      }
      PushRow(Sent(f));
      return true;
    }

    method ClearRx()
      requires Valid()
      modifies this, rxReceived, rxSegments
      ensures Valid() && State() == old(State()).(rx := Spec.ClearRx(old(Rx())))
    {
      rx := rx.(active := false, message := 0, total := 0, count := 0, ack := None);
      Fill(rxReceived, false);
      Fill(rxSegments, []);
      assert rxReceived[..] == NoneSet() && rxSegments[..] == NoSegments();
    }

    method ClearTx(status: Result)
      requires Valid()
      modifies this, txAcked, txInflight, txSegments
      ensures Valid() && State() == old(State()).(tx := Spec.ClearTx(old(Tx())).(status := status))
    {
      tx := TxControl(false, false, status, 0, 0, 0, 0);
      Fill(txAcked, false);
      Fill(txInflight, false);
      Fill(txSegments, []);
      assert txAcked[..] == NoneSet() && txInflight[..] == NoneSet() && txSegments[..] == NoSegments();
    }

    method WipeDuplicates()
      requires Valid()
      modifies dupCache
      ensures Valid() && State() == old(State()).(dup := NoDuplicates())
    {
      Fill(dupCache, Vacant);
      assert dupCache[..] == NoDuplicates();
    }

    /** kal_link_reset */
    method Reset()
      requires Valid()
      modifies this, Buffers()
      ensures Valid() && State() == Spec.Reset(old(State()))
    {
      hide Spec.Recompute, Spec.ClearRx, Spec.ClearTx, NoDuplicates, NoneSet, NoSegments;
      ClearTx(Success);
      ClearRx();
      WipeDuplicates();
      ResetScalars();
      Recompute(window);
    }

    method ResetScalars()
      requires Valid()
      modifies this
      ensures Valid() && State() == old(State()).(
        out := [], session := Session(false, false, 0, ZeroChallenge(), FirstMessage(cfg.role), None, 0),
        timer := old(timer).(deadline := None), delivery := Delivery(false, false, []), heard := None,
          cancelSeen := false)
    {
      outHead, outCount := 0, 0;
      assert Rows() == [];
      session := Session(false, false, 0, ZeroChallenge(), FirstMessage(cfg.role), None, 0);
      timer := timer.(deadline := None);
      delivery := Delivery(false, false, []);
      heard := None;
      cancelSeen := false;
    }

    // ------------------------------------------------------------ session opening

    /** open_session; `entropy` is what kal_random_bytes delivers. */
    method OpenSession(entropy: Option<Entropy>) returns (result: Result)
      requires Valid()
      requires entropy.Some? ==> |entropy.value.challenge| == CHALLENGE_BYTES
      modifies this, outRows
      ensures Valid() && State() == Spec.OpenSession(old(State()), entropy).0
      ensures result == Spec.OpenSession(old(State()), entropy).1
    {
      hide Spec.Recompute, Spec.QueueFrame, Shape, Rows, Tx, Rx;
      if cfg.role != Initiator {
        return Protocol;
      }
      if entropy.None? {
        return ModemFailure;
      }
      var id := entropy.value.session;
      if id == 0 {
        id := 1;
      }
      session := session.(id := id, challenge := entropy.value.challenge);
      ghost var named := old(State()).(session := session);
      NewSession(old(State()), session);
      assert State() == named;
      var hello := Frame(HELLO, session.id, session.nextMessage, 0, CapabilityPack(cfg.profile, window), 0,
        session.challenge);
      assert hello == HelloFrame(named);
      QueueFrameFrame(named, hello);
      var queued := QueueFrame(hello);
      if !queued {
        return Busy;
      }
      session := session.(pending := true, helloRetries := 0);
      NewSession(Spec.QueueFrame(named, hello).0, session);
      Recompute(1);
      timer := Arm(timer);
      assert State() == Spec.OpenSession(old(State()), entropy).0;
      return Success;
    }

    // ------------------------------------------------------------ transmit

    // Build, queue and mark one DATA frame.
    method QueueSegment(sequence: nat) returns (queued: bool)
      requires Valid() && sequence < tx.total
      modifies this, outRows, txInflight
      ensures Valid() && tx == old(tx) && window == old(window)
      ensures var (next, ok) := Spec.QueueFrame(old(State()), DataFrame(old(State()), sequence));
              queued == ok && State()
                == (if ok then next.(tx := next.tx.(inflight := next.tx.inflight[sequence := true])) else old(State()))
    {
      hide Spec.QueueFrame, Rows, Rx;
      var f := Frame(DATA, session.id, tx.message, sequence, tx.total,
                     if sequence == tx.total - 1 then FLAG_DATA_FINAL else 0, txSegments[sequence]);
      assert f == DataFrame(State(), sequence);
      QueueFrameFrame(State(), f);
      queued := QueueFrame(f);
      if queued {
        txInflight[sequence] := true;
      }
    }

    /** queue_window: every unacknowledged segment not already on air, at most `window` of them. */
    method QueueWindow() returns (queued: nat)
      requires Valid()
      modifies this, outRows, txInflight
      ensures Valid() && (State(), queued) == QueueFrom(old(State()), old(tx.base), 0)
    {
      hide Spec.QueueFrame, Rows, Rx, DataFrame, Shape;
      queued := 0;
      var sequence := tx.base;
      while sequence < tx.total && queued < window
        invariant Valid() && tx == old(tx) && window == old(window)
        invariant QueueFrom(old(State()), old(tx.base), 0) == QueueFrom(State(), sequence, queued)
        decreases tx.total - sequence
      {
        Sizes();
        if !(txAcked[sequence] || txInflight[sequence]) {
          var ok := QueueSegment(sequence);
          if !ok {
            return;
          }
          queued := queued + 1;
        }
        sequence := sequence + 1;
      }
    }

    /** start_or_resume_tx */
    method StartOrResume(retransmission: bool)
      requires Valid()
      modifies this, outRows, txInflight
      ensures Valid() && State() == Spec.StartOrResume(old(State()), retransmission)
    {
      hide QueueFrom, Spec.Recompute, Rows, Rx, Shape;
      var queued := QueueWindow();
      if queued == 0 {
        return;
      }
      tx := tx.(started := true);
      QueueFromFrame(old(State()), old(tx.base), 0);
      Started(QueueFrom(old(State()), old(tx.base), 0).0);
      if !retransmission {
        Recompute(queued);
      }
      timer := Arm(timer);
      assert State() == Spec.StartOrResume(old(State()), retransmission);
    }

    /** fail_tx */
    method FailTx(status: Result, reason: u16)
      requires Valid()
      modifies this, outRows, txAcked, txInflight, txSegments
      ensures Valid() && State() == Spec.FailTx(old(State()), status, reason)
    {
      hide Spec.QueueFrame, Rows, Rx, Shape, Spec.ClearTx;
      var cancel := Frame(CANCEL, session.id, tx.message, 0, reason, 0, []);
      assert cancel == CancelFrame(State(), reason);
      QueueFrameFrame(State(), cancel);
      var _ := QueueFrame(cancel);
      ClearTx(status);
      timer := timer.(deadline := None);
      assert State() == Spec.FailTx(old(State()), status, reason);
    }

    // The segmentation loop of kal_send.
    method CutSegments(transfer: seq<byte>, total: nat)
      requires Valid() && 0 < total <= MAX_SEGMENTS && PAYLOAD_BYTES * (total - 1) < |transfer|
      requires txSegments[..] == NoSegments()
      modifies txSegments
      ensures Valid() && State() == old(State()).(tx := old(Tx()).(segments := Chunks(transfer, total)))
    {
      Sizes();
      Cut(txSegments, transfer, total);
      assert txSegments[..] == Chunks(transfer, total);
    }

    // The part of kal_send that fills the transmit buffers.
    method Load(message: seq<byte>, total: nat)
      requires Valid() && SegmentCount(|message|) == Some(total)
      modifies this, txAcked, txInflight, txSegments
      ensures Valid() && State() == Spec.Load(old(State()), message)
    {
      hide Rows, Rx, Shape, NoSegments, NoneSet, Chunks, Sha256.Digest;
      var digest := Sha256.Hash(message);
      ClearTx(tx.status);
      CutSegments(message + digest, total);
      tx := tx.(active := true, status := Busy, message := session.nextMessage, total := total);
      assert State() == Spec.Load(old(State()), message);
    }

    /** kal_send */
    method Send(message: seq<byte>, entropy: Option<Entropy>) returns (result: Result)
      requires Valid()
      requires entropy.Some? ==> |entropy.value.challenge| == CHALLENGE_BYTES
      modifies this, Buffers()
      ensures Valid() && (State(), result) == Spec.Send(old(State()), message, entropy)
    {
      hide Spec.Dispatch, Spec.Load, Rows, Rx, Shape;
      Sizes();
      if |message| > cfg.maxMessage {
        return Invalid;
      }
      if tx.active {
        return Busy;
      }
      var segments := SegmentCount(|message|);
      if segments.None? {
        return Invalid;
      }
      Load(message, segments.value);
      result := Dispatch(entropy);
    }

    // The tail of kal_send.
    method Dispatch(entropy: Option<Entropy>) returns (result: Result)
      requires Valid()
      requires entropy.Some? ==> |entropy.value.challenge| == CHALLENGE_BYTES
      modifies this, Buffers()
      ensures Valid() && (State(), result) == Spec.Dispatch(old(State()), entropy)
    {
      hide Spec.OpenSession, Spec.StartOrResume, Spec.ClearTx, Rows, Rx, Shape;
      if !session.open {
        if cfg.role == Initiator && !session.pending {
          result := OpenSession(entropy);
          if result != Success {
            ClearTx(result);
          }
          return;
        }
        return Success;
      }
      StartOrResume(false);
      return Success;
    }

    /** kal_beacon */
    method Beacon(payload: seq<byte>) returns (result: Result)
      requires Valid()
      modifies this, outRows
      ensures Valid() && (State(), result) == Spec.Beacon(old(State()), payload)
    {
      hide Spec.QueueFrame, Rows, Rx, Tx, Shape;
      if payload == [] || |payload| > MAX_BEACON_BYTES {
        return Invalid;
      }
      var queued := QueueFrame(Frame(BEACON, session.id, session.nextMessage, 0, 0, 0, payload));
      return if queued then Success else Busy;
    }

    /** kal_cancel */
    method Cancel(reason: u16) returns (result: Result)
      requires Valid()
      modifies this, Buffers()
      ensures Valid() && (State(), result) == Spec.Cancel(old(State()), reason)
    {
      hide Spec.FailTx, Rows, Tx, Shape, Spec.ClearRx;
      if reason > CANCEL_REASON_MAX {
        return Invalid;
      }
      FailTx(Cancelled, reason);
      ClearRx();
      return Success;
    }

    // ------------------------------------------------------------ receive

    /** queue_partial_ack */
    method QueuePartialAck()
      requires Valid()
      modifies this, outRows
      ensures Valid() && State() == Spec.QueuePartialAck(old(State()))
    {
      hide Rows, Tx, Shape, Canonical, Validate, PartialAck;
      var ack := BuildPartialAck();
      ValidateIsCanonical(ack);
      if Validate(ack) != Ok {
        return;
      }
      rx := rx.(ack := Some(ack));
      AckCached(old(State()), Some(ack));
      var _ := QueueEncoded(Sent(ack));
    }

    method BuildPartialAck() returns (ack: Frame)
      requires Valid()
      ensures ack == PartialAck(Rx())
    {
      hide Rows, Tx, Shape, Bitmap, FirstClear;
      Sizes();
      var base := FirstMissing(rxReceived, rx.total);
      var bitmap := SelectiveBitmap(rxReceived, base, rx.total);
      ack := Frame(ACK, rx.session, rx.message, base, bitmap, 0, []);
    }

    // The copy loop of finish_rx_message.
    method AssembleTransfer() returns (transfer: Option<seq<byte>>)
      requires Valid()
      ensures transfer == Assemble(Rx(), 0, [])
    {
      hide Shape;
      Sizes();
      var bytes := [];
      var sequence := 0;
      while sequence < rx.total
        invariant sequence <= rx.total
        invariant Assemble(Rx(), 0, []) == Assemble(Rx(), sequence, bytes)
      {
        if !rxReceived[sequence] || |bytes| + |rxSegments[sequence]| > TRANSFER_MAX_BYTES {
          return None;
        }
        bytes := bytes + rxSegments[sequence];
        sequence := sequence + 1;
      }
      return Some(bytes);
    }

    // The checks of finish_rx_message.
    method AcceptMessage() returns (message: Option<seq<byte>>)
      requires Valid()
      ensures message == Accepted(State())
    {
      hide Assemble, Unwrap, Rows, Tx, Shape;
      Sizes();
      var transfer := AssembleTransfer();
      if transfer.None? {
        return None;
      }
      message := CheckTransfer(transfer.value, cfg.maxMessage, rx.total);
    }

    /** finish_rx_message */
    method FinishRx() returns (result: Result)
      requires Valid()
      modifies this, Buffers()
      ensures Valid() && State() == Spec.FinishRx(old(State())).0 && result == Spec.FinishRx(old(State())).1
    {
      hide Accepted, Spec.Deliver, Spec.ClearRx, Rows, Tx, Rx, Shape;
      var message := AcceptMessage();
      if message.None? {
        ClearRx();
        return Integrity;
      }
      result := Deliver(message.value);
    }

    method Deliver(message: seq<byte>) returns (result: Result)
      requires Valid()
      modifies this, Buffers()
      ensures Valid() && State() == Spec.Deliver(old(State()), message).0
        && result == Spec.Deliver(old(State()), message).1
    {
      hide Spec.DupStore, Spec.ClearRx, Rows, Tx, Shape, Canonical, Validate;
      Sizes();
      delivery := Delivery(true, false, message);
      Staged(old(State()), delivery);
      var ack := Frame(ACK, rx.session, rx.message, rx.total, 0, FLAG_ACK_DELIVERED, []);
      assert ack == DeliveredAck(Rx());
      ValidateIsCanonical(ack);
      if Validate(ack) != Ok {
        ClearRx();
        return Integrity;
      }
      var _ := QueueEncoded(Sent(ack));
      Remember(rx.session, rx.message, Sent(ack));
      ClearRx();
      return Result.Delivered;
    }

    method Remember(session: u32, message: u16, row: Row)
      requires Valid()
      modifies dupCache
      ensures Valid()
      ensures State() == old(State()).(dup := Spec.DupStore(old(dupCache[..]), timer.now, cfg.airtime, session,
        message, row))
    {
      hide Spec.DupStore, Rows, Tx, Rx;
      Sizes();
      StoreDuplicate(dupCache, timer.now, cfg.airtime, session, message, row);
    }

    // Storing, or recognising, one segment of the current message.
    method RepeatSegment(f: Frame) returns (result: Result)
      requires Valid() && f.sequence < rx.total
      modifies this, outRows
      ensures Valid() && State() == Spec.RepeatSegment(old(State()), f).0
        && result == Spec.RepeatSegment(old(State()), f).1
    {
      hide Spec.QueuePartialAck, QueueRow, Rows, Tx, Shape;
      Sizes();
      if rxSegments[f.sequence] != f.payload {
        return Protocol;
      }
      if rx.ack.Some? {
        var _ := QueueEncoded(Sent(rx.ack.value));
      } else {
        QueuePartialAck();
      }
      return Success;
    }

    method StoreNew(f: Frame)
      requires Valid() && f.sequence < rx.total
      modifies this, rxReceived, rxSegments
      ensures Valid() && State() == old(State()).(rx := Stored(old(Rx()), f))
    {
      hide Rows, Tx;
      Sizes();
      rxReceived[f.sequence] := true;
      rxSegments[f.sequence] := f.payload;
      rx := rx.(count := rx.count + 1);
    }

    method NewSegment(f: Frame) returns (result: Result)
      requires Valid() && f.sequence < rx.total
      modifies this, Buffers()
      ensures Valid() && State() == Spec.NewSegment(old(State()), f).0 && result == Spec.NewSegment(old(State()), f).1
    {
      hide Spec.QueuePartialAck, Spec.FinishRx, Stored, Rows, Tx, Shape;
      Sizes();
      StoreNew(f);
      if rx.count == rx.total {
        result := FinishRx();
        return;
      }
      Division(rx.count, window);
      if rx.count % window == 0 {
        QueuePartialAck();
      }
      return Success;
    }

    method StoreSegment(f: Frame) returns (result: Result)
      requires Valid() && f.kind == DATA && Canonical(f)
      modifies this, Buffers()
      ensures Valid() && State() == Spec.StoreSegment(old(State()), f).0
        && result == Spec.StoreSegment(old(State()), f).1
    {
      hide Spec.PlaceSegment, Canonical, Rows, Tx, Shape;
      BegunShape(State(), f);
      if !rx.active {
        if delivery.ready {
          // A message still waits for collection, so no other is begun.
          return Success;
        }
        rx := rx.(active := true, session := f.session, message := f.message, total := f.value);
        assert State() == old(State()).(rx := Begun(old(Rx()), f));
      } else if rx.total != f.value {
        return Protocol;
      }
      result := PlaceSegment(f);
    }

    method PlaceSegment(f: Frame) returns (result: Result)
      requires Valid()
      modifies this, Buffers()
      ensures Valid() && State() == Spec.PlaceSegment(old(State()), f).0
        && result == Spec.PlaceSegment(old(State()), f).1
    {
      hide Spec.RepeatSegment, Spec.NewSegment, Rows, Tx, Shape;
      Sizes();
      if f.sequence >= rx.total {
        return Protocol;
      }
      if rxReceived[f.sequence] {
        result := RepeatSegment(f);
      } else {
        result := NewSegment(f);
      }
    }

    method LookUp(session: u32, message: u16) returns (hit: Option<Row>)
      requires Valid()
      modifies dupCache
      ensures Valid() && hit == Spec.DupLookup(old(dupCache[..]), timer.now, session, message).1
      ensures State() == old(State()).(dup := Spec.DupLookup(old(dupCache[..]), timer.now, session, message).0)
    {
      hide Spec.DupLookup, Rows, Tx, Rx;
      hit := ScanDuplicates(dupCache, timer.now, session, message);
    }

    /** handle_data */
    method HandleData(f: Frame) returns (result: Result)
      requires Valid() && f.kind == DATA && Canonical(f)
      modifies this, Buffers()
      ensures Valid() && State() == Spec.HandleData(old(State()), f).0 && result == Spec.HandleData(old(State()), f).1
    {
      hide Spec.DupLookup, Spec.StoreSegment, Spec.ClearRx, QueueRow, Canonical, Rows, Tx, Shape;
      if !session.open || f.session != session.id {
        return Protocol;
      }
      var cached := LookUp(f.session, f.message);
      if cached.Some? {
        var _ := QueueEncoded(cached.value);
        return Success;
      }
      if rx.active && f.message != rx.message {
        ClearRx();
      }
      result := StoreSegment(f);
    }

    // The marking loops of handle_ack.
    method MarkAcked(f: Frame)
      requires Valid() && f.sequence <= tx.total
      modifies this, txAcked, txInflight
      ensures Valid() && State() == old(State()).(tx := Spec.MarkAcked(old(Tx()), f))
    {
      hide AckedAfter, InflightAfter, Names, FirstClear, Rows, Rx;
      Sizes();
      ghost var before := Tx();
      MarkNamed(txAcked, txInflight, tx.total, f);
      MarksAre(before, f, txAcked[..], txInflight[..]);
      var base := FirstUnacked(txAcked, tx.base, tx.total);
      tx := tx.(base := base, retries := 0);
    }

    /** handle_ack */
    method HandleAck(f: Frame) returns (result: Result)
      requires Valid()
      modifies this, Buffers()
      ensures Valid() && State() == Spec.HandleAck(old(State()), f).0 && result == Spec.HandleAck(old(State()), f).1
    {
      hide Spec.MarkAcked, Spec.ClearTx, Spec.StartOrResume, Spec.Recompute, Rows, Rx, Shape;
      if !tx.active || f.session != session.id || f.message != tx.message {
        return Protocol;
      }
      Division(f.flags, 2);
      if f.flags % 2 == 1 {
        if f.sequence != tx.total {
          return Protocol;
        }
        ClearTx(Success);
        timer := timer.(deadline := None);
        session := session.(nextMessage := (session.nextMessage + 2) % 0x1_0000);
        assert State() == Spec.HandleAck(old(State()), f).0;
        return Success;
      }
      if f.sequence > tx.total {
        return Protocol;
      }
      MarkAcked(f);
      Recompute(window);
      StartOrResume(false);
      if timer.deadline.None? {
        timer := Arm(timer);
      }
      assert State() == Spec.HandleAck(old(State()), f).0;
      return Success;
    }

    // The tail of handle_hello: take the peer's session and answer it.
    method AdoptSession(f: Frame) returns (result: Result)
      requires Valid() && f.kind == HELLO && Canonical(f)
      modifies this, Buffers()
      ensures Valid() && State() == Spec.AdoptSession(old(State()), f).0
        && result == Spec.AdoptSession(old(State()), f).1
    {
      Sizes();
      NamedShape(State(), f);
      hide Spec.Answered, Canonical, Validate, Rows, Tx, Rx, Shape;
      session := session.(id := f.session, challenge := f.payload);
      var peer := CapabilityWindow(f.value);
      window := ClampWindow(if peer < window then peer else window);
      assert State() == Named(old(State()), f);
      var reply := Frame(HELLO_ACK, session.id, f.message, 0, CapabilityPack(cfg.profile, window), 0,
        session.challenge);
      assert reply == HelloAckFrame(State(), f.message);
      ValidateIsCanonical(reply);
      if Validate(reply) != Ok {
        return Protocol;
      }
      Answer(reply);
      return Success;
    }

    method Answer(reply: Frame)
      requires Valid()
      modifies this, Buffers()
      ensures Valid() && State() == Answered(old(State()), reply)
    {
      hide Spec.StartOrResume, Spec.Recompute, QueueRow, Rows, Rx, Shape;
      Sizes();
      var _ := QueueEncoded(Sent(reply));
      session := session.(helloAck := Some(reply), open := true);
      QueueRowFrame(old(State()), Sent(reply));
      NewSession(QueueRow(old(State()), Sent(reply)), session);
      assert State() == QueueRow(old(State()), Sent(reply)).(session := session);
      Recompute(window);
      if tx.active && !tx.started {
        StartOrResume(false);
      }
    }

    method ReplayHelloAck()
      requires Valid()
      modifies this, outRows
      ensures Valid() && State() == Spec.ReplayHelloAck(old(State()))
    {
      hide QueueRow, Rows, Tx, Rx, Shape;
      if session.helloAck.Some? {
        var _ := QueueEncoded(Sent(session.helloAck.value));
      }
    }

    // handle_hello at an initiator whose own proposal is pending.
    method Collide(f: Frame) returns (result: Result)
      requires Valid() && f.kind == HELLO && Canonical(f)
      modifies this, Buffers()
      ensures Valid() && State() == Spec.Collide(old(State()), f).0 && result == Spec.Collide(old(State()), f).1
    {
      hide Spec.AdoptSession, Spec.Yield, Canonical, Rows, Tx, Rx, Shape;
      if !Below(f.session, session.id) {
        return Success;
      }
      Yield();
      result := AdoptSession(f);
    }

    method Yield()
      requires Valid()
      modifies this, txAcked, txInflight, txSegments
      ensures Valid() && State() == Spec.Yield(old(State()))
    {
      ClearTxKeepsStatus(Tx());
      hide Spec.ClearTx, Rows, Rx, Shape;
      ClearTx(tx.status);
      session := session.(pending := false);
      assert State() == Spec.Yield(old(State()));
    }

    // handle_hello at a responder that is open under another session.
    method Replace(f: Frame) returns (result: Result)
      requires Valid() && f.kind == HELLO && Canonical(f)
      modifies this, Buffers()
      ensures Valid() && State() == Spec.Replace(old(State()), f).0 && result == Spec.Replace(old(State()), f).1
    {
      hide Spec.AdoptSession, Spec.ClearRx, NoDuplicates, Canonical, Rows, Tx, Shape;
      ClearRx();
      WipeDuplicates();
      result := AdoptSession(f);
    }

    /** handle_hello */
    method HandleHello(f: Frame) returns (result: Result)
      requires Valid() && f.kind == HELLO && Canonical(f)
      modifies this, Buffers()
      ensures Valid() && State() == Spec.HandleHello(old(State()), f).0 && result == Spec.HandleHello(old(State()), f).1
    {
      hide Spec.AdoptSession, Spec.Replace, Spec.Collide, Spec.ReplayHelloAck, Canonical, Rows, Tx, Rx, Shape;
      if CapabilityProfile(f.value) != cfg.profile {
        return Protocol;
      }
      if cfg.role == Initiator {
        if session.pending {
          result := Collide(f);
          return;
        } else if session.open && f.session == session.id {
          ReplayHelloAck();
          return Success;
        } else if session.open {
          return Protocol;
        }
      } else if session.open && f.session == session.id {
        ReplayHelloAck();
        return Success;
      } else if session.open {
        result := Replace(f);
        return;
      }
      result := AdoptSession(f);
    }

    /** handle_hello_ack */
    method HandleHelloAck(f: Frame) returns (result: Result)
      requires Valid()
      modifies this, Buffers()
      ensures Valid() && State() == Spec.HandleHelloAck(old(State()), f).0
        && result == Spec.HandleHelloAck(old(State()), f).1
    {
      hide Spec.StartOrResume, Spec.Recompute, Rows, Rx, Shape;
      Sizes();
      if !session.pending || f.session != session.id {
        return Protocol;
      }
      if f.payload != session.challenge {
        return Protocol;
      }
      if CapabilityProfile(f.value) != cfg.profile {
        return Protocol;
      }
      session := session.(pending := false, open := true);
      var peer := CapabilityWindow(f.value);
      window := ClampWindow(if peer < window then peer else window);
      NewWindow(old(State()), session, window);
      assert State() == old(State()).(session := session, window := window);
      Recompute(window);
      timer := timer.(deadline := None);
      NewTimer(old(State()).(session := session, window := window), timer);
      if tx.active {
        StartOrResume(false);
      }
      assert State() == Spec.HandleHelloAck(old(State()), f).0;
      return Success;
    }

    /** handle_cancel */
    method HandleCancel(f: Frame) returns (result: Result)
      requires Valid()
      modifies this, Buffers()
      ensures Valid() && State() == Spec.HandleCancel(old(State()), f).0
        && result == Spec.HandleCancel(old(State()), f).1
    {
      hide Spec.ClearTx, Spec.ClearRx, Rows, Shape;
      if !session.open || f.session != session.id {
        return Protocol;
      }
      ClearRx();
      ClearTx(Result.Cancelled);
      timer := timer.(deadline := None);
      cancelSeen := true;
      assert State() == Spec.HandleCancel(old(State()), f).0;
      return Result.Cancelled;
    }

    /** handle_beacon */
    method HandleBeacon(f: Frame) returns (result: Result)
      requires Valid()
      modifies this, Buffers()
      ensures Valid() && State() == Spec.HandleBeacon(old(State()), f).0
        && result == Spec.HandleBeacon(old(State()), f).1
    {
      hide Spec.DupLookup, Spec.DupStore, Rows, Tx, Rx, Shape;
      if delivery.ready {
        return Success;
      }
      var cached := LookUp(f.session, f.message);
      if cached.Some? {
        return Success;
      }
      Remember(f.session, f.message, Blank);
      delivery := Delivery(true, true, f.payload);
      assert State() == Spec.HandleBeacon(old(State()), f).0;
      return Result.Delivered;
    }

    /** The dispatch of handle_frame. */
    method HandleFrame(f: Frame) returns (result: Result)
      requires Valid() && Canonical(f)
      modifies this, Buffers()
      ensures Valid() && State() == Spec.HandleFrame(old(State()), f).0 && result == Spec.HandleFrame(old(State()), f).1
    {
      hide Spec.HandleHello, Spec.HandleHelloAck, Spec.HandleData, Spec.HandleAck, Spec.HandleCancel, Spec.HandleBeacon,
        Canonical, Valid, State, Layout, Shape;
      if f.kind == HELLO {
        result := HandleHello(f);
      } else if f.kind == HELLO_ACK {
        result := HandleHelloAck(f);
      } else if f.kind == DATA {
        result := HandleData(f);
      } else if f.kind == ACK {
        result := HandleAck(f);
      } else if f.kind == CANCEL {
        result := HandleCancel(f);
      } else {
        result := HandleBeacon(f);
      }
    }

    /** One decoded burst: the repeat guard of kal_rx_push_s16, then handle_frame. */
    method Hear(raw: Codec.Raw) returns (result: Result)
      requires Valid()
      modifies this, Buffers()
      ensures Valid() && State() == Spec.Hear(old(State()), raw).0 && result == Spec.Hear(old(State()), raw).1
    {
      hide Spec.HandleFrame, Canonical, Codec.Decode, Rows, Tx, Rx, Shape;
      if heard.Some? && timer.now - heard.value.at < 2 * cfg.airtime && heard.value.raw == raw {
        return Success;
      }
      heard := Some(Heard(raw, timer.now));
      NewlyHeard(old(State()), heard);
      assert State() == old(State()).(heard := heard);
      var decoded := Codec.DecodeFrom(raw);
      if decoded.Bad? {
        return Protocol;
      }
      result := HandleFrame(decoded.frame);
    }

    // ------------------------------------------------------------ timers, output, collection

    // advance_time while a session opening is pending.
    method ExpireHello()
      requires Valid()
      modifies this, Buffers()
      ensures Valid() && State() == Spec.ExpireHello(old(State()))
    {
      hide Spec.ClearTx, Spec.QueueFrame, Rows, Tx, Rx, Shape;
      Sizes();
      if session.helloRetries >= cfg.maxRetries {
        session := session.(pending := false);
        NewSession(old(State()), session);
        ClearTx(Timeout);
        return;
      }
      var hello := Frame(HELLO, session.id, session.nextMessage, 0, CapabilityPack(cfg.profile, window), 0,
        session.challenge);
      assert hello == HelloFrame(State());
      QueueFrameFrame(State(), hello);
      var _ := QueueFrame(hello);
      session := session.(helloRetries := session.helloRetries + 1);
      timer := Arm(BackOff(timer));
      assert State() == Spec.ExpireHello(old(State()));
    }

    // advance_time while a transfer is on air.
    method ExpireData()
      requires Valid()
      modifies this, Buffers()
      ensures Valid() && State() == Spec.ExpireData(old(State()))
    {
      hide Spec.FailTx, Spec.StartOrResume, Rows, Rx, Shape, NoneSet;
      Sizes();
      if tx.retries >= cfg.maxRetries {
        FailTx(Timeout, CANCEL_TIMEOUT);
        return;
      }
      BackOffAndForget();
      StartOrResume(true);
    }

    // The state an expiry retransmits from.
    method BackOffAndForget()
      requires Valid()
      modifies this, txInflight
      ensures Valid()
      ensures State() == old(State()).(tx := old(Tx()).(retries := old(tx.retries) + 1, inflight := NoneSet()),
        timer := BackOff(old(timer)))
    {
      hide Rows, Rx;
      Sizes();
      tx := tx.(retries := tx.retries + 1);
      timer := BackOff(timer);
      Fill(txInflight, false);
      assert txInflight[..] == NoneSet();
    }

    /** advance_time */
    method AdvanceTime(time: nat)
      requires Valid()
      modifies this, Buffers()
      ensures Valid() && State() == Spec.AdvanceTime(old(State()), time)
    {
      hide Spec.ExpireHello, Spec.ExpireData, Rows, Rx, Shape;
      if time > timer.now {
        timer := timer.(now := time);
      }
      NewTimer(old(State()), timer);
      assert State() == old(State()).(timer := timer);
      if timer.deadline.None? || timer.now < timer.deadline.value {
        return;
      }
      timer := timer.(deadline := None);
      NewTimer(old(State()), timer);
      assert State() == old(State()).(timer := timer);
      if session.pending {
        ExpireHello();
      } else if tx.active && tx.started {
        ExpireData();
      }
    }

    /** The row kal_tx_pull_s16 would transmit next. */
    method Oldest() returns (row: Option<Row>)
      requires Valid()
      ensures row == if State().out == [] then None else Some(State().out[0])
    {
      assert |Rows()| == outCount;
      return if outCount == 0 then None else Some(outRows[outHead]);
    }

    /** The dequeue of kal_tx_pull_s16. */
    method TakeRow() returns (row: Option<Row>)
      requires Valid()
      modifies `outHead, `outCount
      ensures Valid() && (State(), row) == Spec.TakeRow(old(State()))
    {
      if outCount == 0 {
        assert Rows() == [];
        return None;
      }
      assert Rows()[0] == outRows[outHead];
      row := Some(outRows[outHead]);
      PopRow();
      hide Rows;
    }

    method PopRow()
      requires Layout() && 0 < outCount
      modifies `outHead, `outCount
      ensures Layout() && Rows() == old(Rows())[1..]
    {
      ghost var before := Rows();
      var next := outHead + 1;
      assert next % OUT_QUEUE_FRAMES == if next == OUT_QUEUE_FRAMES then 0 else next;
      outHead := next % OUT_QUEUE_FRAMES;
      outCount := outCount - 1;
    }

    /** kal_receive */
    method Collect(capacity: nat) returns (result: Result, message: seq<byte>)
      requires Valid()
      modifies this
      ensures Valid() && (State(), result, message) == Spec.Collect(old(State()), capacity)
    {
      hide Rows, Tx, Rx, Shape;
      if !delivery.ready {
        return WantInput, [];
      }
      if capacity < |delivery.message| {
        return Invalid, [];
      }
      message := delivery.message;
      delivery := Delivery(false, false, []);
      assert State() == Spec.Collect(old(State()), capacity).0;
      return Success, message;
    }
  }

  // ------------------------------------------------------------ loops over the fixed buffers, and shape facts

  lemma ClearTxKeepsStatus(tx: Sender)
    ensures Spec.ClearTx(tx).(status := tx.status) == Spec.ClearTx(tx)
  {
  }

  lemma NewWindow(l: Spec.Link, session: Session, window: nat)
    requires Shape(l) && |session.challenge| == CHALLENGE_BYTES && MIN_WINDOW <= window <= MAX_WINDOW
    ensures Shape(l.(session := session, window := window))
  {
  }

  lemma NewTimer(l: Spec.Link, timer: Timer)
    requires Shape(l)
    ensures Shape(l.(timer := timer))
  {
  }

  lemma NewlyHeard(l: Spec.Link, heard: Option<Heard>)
    requires Shape(l)
    ensures Shape(l.(heard := heard))
  {
  }

  lemma BegunShape(l: Spec.Link, f: Frame)
    requires Shape(l) && f.kind == DATA && Canonical(f)
    ensures ReassemblyShape(l.rx) && Shape(l.(rx := Begun(l.rx, f)))
  {
  }

  lemma NamedShape(l: Spec.Link, f: Frame)
    requires Shape(l) && f.kind == HELLO && Canonical(f)
    ensures Shape(Named(l, f))
  {
  }

  lemma MarksAre(tx: Sender, f: Frame, acked: seq<bool>, inflight: seq<bool>)
    requires SenderShape(tx) && |acked| == |inflight| == MAX_SEGMENTS
    requires forall i | 0 <= i < MAX_SEGMENTS :: acked[i] == (tx.acked[i] || (i < tx.total && Names(f, i)))
    requires forall i | 0 <= i < MAX_SEGMENTS :: inflight[i] == (tx.inflight[i] && !(i < tx.total && Names(f, i)))
    ensures acked == AckedAfter(tx, f) && inflight == InflightAfter(tx, f)
  {
    hide Names;
  }

  /** The two marking loops of handle_ack: the cumulative part, then the selective bits inside the message. */
  method MarkNamed(acked: array<bool>, inflight: array<bool>, total: nat, f: Frame)
    requires total <= acked.Length == inflight.Length && acked != inflight && f.sequence <= total
    modifies acked, inflight
    ensures forall i | 0 <= i < acked.Length :: acked[i] == (old(acked[i]) || (i < total && Names(f, i)))
    ensures forall i | 0 <= i < acked.Length :: inflight[i] == (old(inflight[i]) && !(i < total && Names(f, i)))
  {
    hide HasBit;
    var sequence := 0;
    while sequence < f.sequence
      invariant 0 <= sequence <= f.sequence
      invariant forall i | 0 <= i < acked.Length :: acked[i] == (old(acked[i]) || i < sequence)
      invariant forall i | 0 <= i < acked.Length :: inflight[i] == (old(inflight[i]) && !(i < sequence))
    {
      acked[sequence] := true;
      inflight[sequence] := false;
      sequence := sequence + 1;
    }
    var bit := 0;
    while bit < 16
      invariant 0 <= bit <= 16
      invariant forall i | 0 <= i < acked.Length ::
                  acked[i] == (old(acked[i]) || (i < total && i <= f.sequence + bit && Names(f, i)))
      invariant forall i | 0 <= i < acked.Length ::
                  inflight[i] == (old(inflight[i]) && !(i < total && i <= f.sequence + bit && Names(f, i)))
    {
      var marked := f.sequence + 1 + bit;
      if marked >= total {
        break;
      }
      if HasBit(f.value, bit) {
        acked[marked] := true;
        inflight[marked] := false;
      }
      bit := bit + 1;
    }
  }

  // The tx_base loop of handle_ack.
  method FirstUnacked(acked: array<bool>, from: nat, total: nat) returns (base: nat)
    requires from <= total <= acked.Length
    ensures base == FirstClear(acked[..], from, total)
  {
    base := from;
    while base < total && acked[base]
      invariant from <= base <= total
      invariant FirstClear(acked[..], from, total) == FirstClear(acked[..], base, total)
    {
      base := base + 1;
    }
  }

  lemma Cleared(segments: array<seq<byte>>, flags: array<bool>)
    requires segments.Length == flags.Length == MAX_SEGMENTS
    requires forall i | 0 <= i < MAX_SEGMENTS :: segments[i] == [] && !flags[i]
    ensures segments[..] == NoSegments() && flags[..] == NoneSet()
  {
  }

  lemma ValidateIsCanonical(f: Frame)
    ensures Validate(f) == Ok <==> Canonical(f)
  {
  }

  lemma AckCached(l: Spec.Link, ack: Option<Frame>)
    requires Shape(l)
    ensures Shape(l.(rx := l.rx.(ack := ack)))
  {
  }

  lemma Staged(l: Spec.Link, delivery: Delivery)
    requires Shape(l)
    ensures Shape(l.(delivery := delivery))
  {
  }

  // Length, segment count and digest of a complete transfer.
  method CheckTransfer(transfer: seq<byte>, maxMessage: nat, total: nat) returns (message: Option<seq<byte>>)
    requires maxMessage <= MAX_MESSAGE_BYTES
    ensures message == Unwrap(transfer, maxMessage, total)
  {
    hide SegmentCount, Sha256.Digest;
    if |transfer| < DIGEST_BYTES {
      return None;
    }
    var length := |transfer| - DIGEST_BYTES;
    if length > maxMessage || SegmentCount(length) != Some(total) {
      return None;
    }
    var observed := Sha256.Hash(transfer[..length]);
    var same := Sha256.DigestEqual(observed, transfer[length..]);
    return if same then Some(transfer[..length]) else None;
  }

  /** first_missing */
  method FirstMissing(received: array<bool>, total: nat) returns (sequence: nat)
    requires total <= received.Length
    ensures sequence == FirstClear(received[..], 0, total)
  {
    sequence := 0;
    while sequence < total
      invariant sequence <= total
      invariant FirstClear(received[..], 0, total) == FirstClear(received[..], sequence, total)
    {
      if !received[sequence] {
        return;
      }
      sequence := sequence + 1;
    }
  }

  // The bit loop of queue_partial_ack; setting a clear bit adds its weight.
  method SelectiveBitmap(received: array<bool>, base: nat, total: nat) returns (bitmap: u16)
    requires total <= received.Length
    ensures bitmap == Bitmap(received[..], base, total, 0)
  {
    hide Bitmap, Pow2;
    Pow16();
    ghost var flags := received[..];
    WeightTurn(0);
    var sum := 0;
    var bit := 0;
    var weight := 1;
    while bit < 16
      invariant 0 <= bit <= 16 && weight == Pow2(bit)
      invariant sum + weight * Bitmap(flags, base, total, bit) == Bitmap(flags, base, total, 0)
    {
      Acks.BitmapTurn(flags, base, total, bit);
      WeightTurn(bit + 1);
      if base + 1 + bit >= total {
        break;
      }
      BitWeight(weight, if received[base + 1 + bit] then 1 else 0, Bitmap(flags, base, total, bit + 1));
      if received[base + 1 + bit] {
        sum := sum + weight;
      }
      weight := 2 * weight;
      bit := bit + 1;
    }
    LastBit(flags, base, total);
    return sum;
  }

  lemma WeightTurn(bit: nat)
    ensures Pow2(bit) == if bit == 0 then 1 else 2 * Pow2(bit - 1)
  {
  }

  lemma LastBit(flags: seq<bool>, base: nat, total: nat)
    requires total <= |flags|
    ensures Bitmap(flags, base, total, 16) == 0
  {
  }

  lemma BitWeight(weight: nat, bit: nat, rest: nat)
    ensures weight * (bit + 2 * rest) == weight * bit + (2 * weight) * rest
  {
  }

  method Cut(segments: array<seq<byte>>, transfer: seq<byte>, total: nat)
    requires 0 < total <= segments.Length && PAYLOAD_BYTES * (total - 1) < |transfer|
    modifies segments
    ensures forall i | 0 <= i < total :: segments[i] == Chunk(transfer, i)
    ensures forall i | total <= i < segments.Length :: segments[i] == old(segments[i])
  {
    var offset := 0;
    var sequence := 0;
    while sequence < total
      invariant 0 <= sequence <= total
      invariant offset == if sequence < total then PAYLOAD_BYTES * sequence else offset
      invariant forall i | 0 <= i < sequence :: segments[i] == Chunk(transfer, i)
      invariant forall i | sequence <= i < segments.Length :: segments[i] == old(segments[i])
    {
      var chunk := |transfer| - offset;
      if chunk > PAYLOAD_BYTES {
        chunk := PAYLOAD_BYTES;
      }
      segments[sequence] := transfer[offset..offset + chunk];
      offset := offset + chunk;
      sequence := sequence + 1;
    }
  }

  lemma QueueRowFrame(l: Spec.Link, row: Row)
    requires Shape(l)
    ensures QueueRow(l, row) == l.(out := QueueRow(l, row).out)
  {
  }

  lemma Started(l: Spec.Link)
    requires Shape(l)
    ensures Shape(l.(tx := l.tx.(started := true)))
  {
  }

  lemma NewSession(l: Spec.Link, session: Session)
    requires Shape(l) && |session.challenge| == CHALLENGE_BYTES
    ensures Shape(l.(session := session))
  {
  }

  // queue_frame touches nothing but the ring.
  lemma QueueFrameFrame(l: Spec.Link, f: Frame)
    requires Shape(l)
    ensures Spec.QueueFrame(l, f).0 == l.(out := Spec.QueueFrame(l, f).0.out)
    ensures !Spec.QueueFrame(l, f).1 ==> Spec.QueueFrame(l, f).0 == l
  {
  }

  // memset
  method Fill<T>(a: array<T>, v: T)
    modifies a
    ensures forall i | 0 <= i < a.Length :: a[i] == v
  {
    var i := 0;
    while i < a.Length
      invariant 0 <= i <= a.Length
      invariant forall j | 0 <= j < i :: a[j] == v
    {
      a[i] := v;
      i := i + 1;
    }
  }

  // ------------------------------------------------------------ duplicate cache

  // One turn of the lookup.
  lemma LookupTurn(dup: seq<DupEntry>, index: nat, now: nat, session: u32, message: u16)
    requires index < |dup|
    ensures var e, rest := dup[index], Spec.DupLookup(dup[index + 1..], now, session, message);
      Spec.DupLookup(dup[index..], now, session, message)
      == if Live(e, now) && e.session == session && e.message == message then (dup[index..], Some(e.ack))
         else ([if e.Held? && e.expires <= now then Vacant else e] + rest.0, rest.1)
  {
    assert dup[index..][1..] == dup[index + 1..] && dup[index..][0] == dup[index];
  }

  // The lookup of `before`, having passed `index` entries and left `done` of them.
  ghost predicate Passed(before: seq<DupEntry>, index: nat, done: seq<DupEntry>, now: nat, session: u32, message: u16)
    requires index <= |before|
  {
    var rest := Spec.DupLookup(before[index..], now, session, message);
    Spec.DupLookup(before, now, session, message) == (done + rest.0, rest.1)
  }

  lemma PassedNone(before: seq<DupEntry>, now: nat, session: u32, message: u16)
    ensures Passed(before, 0, [], now, session, message)
  {
    hide Spec.DupLookup;
    assert before[0..] == before;
    var rest := Spec.DupLookup(before, now, session, message);
    assert [] + rest.0 == rest.0;
  }

  lemma PassedOne(before: seq<DupEntry>, index: nat, done: seq<DupEntry>, now: nat, session: u32, message: u16)
    requires index < |before| && Passed(before, index, done, now, session, message)
    ensures var e := before[index];
      if Live(e, now) && e.session == session && e.message == message
      then Spec.DupLookup(before, now, session, message) == (done + before[index..], Some(e.ack))
      else Passed(before, index + 1, done + [if e.Held? && e.expires <= now then Vacant else e], now, session, message)
  {
    hide Spec.DupLookup;
    LookupTurn(before, index, now, session, message);
    var e, rest := before[index], Spec.DupLookup(before[index + 1..], now, session, message);
    var left := if e.Held? && e.expires <= now then Vacant else e;
    assert done + ([left] + rest.0) == (done + [left]) + rest.0;
  }

  lemma PassedAll(before: seq<DupEntry>, done: seq<DupEntry>, now: nat, session: u32, message: u16)
    requires Passed(before, |before|, done, now, session, message)
    ensures Spec.DupLookup(before, now, session, message) == (done, None)
  {
    assert before[|before|..] == [] && done + [] == done;
  }

  /** dup_lookup */
  method ScanDuplicates(cache: array<DupEntry>, now: nat, session: u32, message: u16) returns (hit: Option<Row>)
    modifies cache
    ensures cache[..] == Spec.DupLookup(old(cache[..]), now, session, message).0
    ensures hit == Spec.DupLookup(old(cache[..]), now, session, message).1
  {
    hide Spec.DupLookup, Passed;
    ghost var before := cache[..];
    PassedNone(before, now, session, message);
    var index := 0;
    while index < cache.Length
      invariant 0 <= index <= cache.Length == |before|
      invariant forall k | index <= k < |before| :: cache[k] == before[k]
      invariant Passed(before, index, cache[..index], now, session, message)
    {
      ghost var done := cache[..index];
      PassedOne(before, index, done, now, session, message);
      if cache[index].Held? {
        if cache[index].expires <= now {
          cache[index] := Vacant;
        } else if cache[index].session == session && cache[index].message == message {
          assert cache[..] == done + before[index..];
          return Some(cache[index].ack);
        }
      }
      assert cache[..index + 1] == done + [cache[index]];
      index := index + 1;
    }
    assert cache[..] == cache[..index];
    PassedAll(before, cache[..], now, session, message);
    return None;
  }

  /** dup_store */
  method StoreDuplicate(cache: array<DupEntry>, now: nat, airtime: nat, session: u32, message: u16, ack: Row)
    requires 0 < cache.Length
    modifies cache
    ensures cache[..] == Spec.DupStore(old(cache[..]), now, airtime, session, message, ack)
  {
    ghost var dup := cache[..];
    var victim := 0;
    var earliest: Option<nat> := None;
    var index := 0;
    while index < cache.Length
      invariant 0 <= index <= cache.Length && victim < cache.Length
      invariant index > 0 ==> dup[victim].Held? && earliest == Some(dup[victim].expires)
      invariant index == 0 ==> earliest == None
      invariant DupVictim(dup, now, session, message, 0, None)
             == DupVictim(dup, now, session, message, index, if index == 0 then None else Some(victim))
    {
      if !cache[index].Held? || cache[index].expires <= now {
        victim := index;
        break;
      }
      if cache[index].session == session && cache[index].message == message {
        victim := index;
        break;
      }
      if earliest.None? || cache[index].expires < earliest.value {
        earliest := Some(cache[index].expires);
        victim := index;
      }
      index := index + 1;
    }
    cache[victim] := Held(session, message, now + airtime * DUP_CACHE_TTL_FRAMES, ack);
  }

  /** kal_link_create, given the airtime the modem measures. */
  method Create(o: Options, airtime: nat) returns (result: Result, link: Link?)
    ensures match Admit(o, airtime)
      case Refused(error) => result == error && link == null
      case Admitted(cfg, window) =>
        result == Success && link != null && fresh(link) && link.Valid() && fresh(link.Buffers())
          && link.State() == Initial(cfg, window)
  {
    hide Initial;
    match Admit(o, airtime)
    case Refused(error) =>
      return error, null;
    case Admitted(cfg, window) =>
      link := new Link(cfg, window);
      return Success, link;
  }
}
