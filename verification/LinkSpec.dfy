/**
  What each operation of src/kal_link.c computes, as functions on a value of the link's state.
  Link.dfy proves the field-by-field implementation against these functions; the protocol theorems are about them.
 */
module LinkSpec {
  import opened Bytes
  import opened Wire
  import Codec
  import Sha256

  const OUT_QUEUE_FRAMES := 32
  const DUP_CACHE_ENTRIES := 8
  const DUP_CACHE_TTL_FRAMES := 64
  const TIMEOUT_CEILING_MULT := 8
  const TRANSFER_MAX_BYTES := 4128

  datatype Role = Initiator | Responder

  datatype Result = Success | WantInput | HaveOutput | Delivered | Invalid | Protocol | Integrity | Timeout | Busy
                  | ModemFailure | Unsupported | Cancelled

  /** One 64-byte row of the outbound ring, of the duplicate cache or of a cached reply: the encoding of a
      canonical frame, or the 64 zero bytes a beacon leaves in the duplicate cache. */
  datatype Row = Sent(frame: Frame) | Blank

  // Configuration fixed at creation; airtime is the modem's measured frame time.
  datatype Config = Config(role: Role, profile: u8, maxRetries: nat, maxMessage: nat, airtime: nat)

  datatype Session = Session(
    open: bool, pending: bool, id: u32, challenge: seq<byte>, nextMessage: u16, helloAck: Option<Frame>,
      helloRetries: nat)

  datatype Timer = Timer(now: nat, deadline: Option<nat>, base: nat, ceiling: nat, timeout: nat)

  datatype Sender = Sender(
    active: bool, started: bool, status: Result, message: u16, total: nat, base: nat, retries: nat,
    segments: seq<seq<byte>>, acked: seq<bool>, inflight: seq<bool>)

  datatype Reassembly = Reassembly(
    active: bool, session: u32, message: u16, total: nat, count: nat,
    received: seq<bool>, segments: seq<seq<byte>>, ack: Option<Frame>)

  datatype DupEntry = Vacant | Held(session: u32, message: u16, expires: nat, ack: Row)

  datatype Delivery = Delivery(ready: bool, beacon: bool, message: seq<byte>)

  // The last frame heard, for the repeat guard.
  datatype Heard = Heard(raw: Codec.Raw, at: nat)

  datatype Link = Link(
    cfg: Config, window: nat, session: Session, timer: Timer, tx: Sender, rx: Reassembly,
    dup: seq<DupEntry>, delivery: Delivery, out: seq<Row>, heard: Option<Heard>, cancelSeen: bool)

  // Random material for one session opening; None when the generator fails.
  datatype Entropy = Entropy(session: u32, challenge: seq<byte>)

  // ------------------------------------------------------------ shape

  function NoneSet(): (s: seq<bool>)
    ensures |s| == MAX_SEGMENTS
  {
    seq(MAX_SEGMENTS, _ => false)
  }

  function NoSegments(): (s: seq<seq<byte>>)
    ensures |s| == MAX_SEGMENTS
  {
    seq(MAX_SEGMENTS, _ => [])
  }

  function NoDuplicates(): (s: seq<DupEntry>)
    ensures |s| == DUP_CACHE_ENTRIES
  {
    seq(DUP_CACHE_ENTRIES, _ => Vacant)
  }

  function ZeroChallenge(): (s: seq<byte>)
    ensures |s| == CHALLENGE_BYTES
  {
    seq(CHALLENGE_BYTES, _ => 0)
  }

  // The sizes and ranges every operation relies on and keeps.
  predicate Shape(l: Link) {
    && l.cfg.profile < PROFILE_COUNT && l.cfg.maxMessage <= MAX_MESSAGE_BYTES && 0 < l.cfg.airtime
    && MIN_WINDOW <= l.window <= MAX_WINDOW
    && |l.session.challenge| == CHALLENGE_BYTES
    && SenderShape(l.tx)
    && ReassemblyShape(l.rx)
    && |l.dup| == DUP_CACHE_ENTRIES
    && |l.out| <= OUT_QUEUE_FRAMES
  }

  predicate SenderShape(tx: Sender) {
    && tx.base <= tx.total <= MAX_SEGMENTS
    && |tx.segments| == |tx.acked| == |tx.inflight| == MAX_SEGMENTS
  }

  predicate ReassemblyShape(rx: Reassembly) {
    && rx.total <= MAX_SEGMENTS
    && |rx.received| == |rx.segments| == MAX_SEGMENTS
  }

  // ------------------------------------------------------------ helpers

  function ClampWindow(requested: nat): nat {
    if requested < MIN_WINDOW then MIN_WINDOW else if requested > MAX_WINDOW then MAX_WINDOW else requested
  }

  // The time `frames` frames take on air. A sum, because a product of two variables is costly wherever it is in scope.
  function Airtimes(airtime: nat, frames: nat): nat {
    if frames == 0 then 0 else Airtimes(airtime, frames - 1) + airtime
  }

  lemma {:induction false} AirtimesIsProduct(airtime: nat, frames: nat)
    ensures Airtimes(airtime, frames) == airtime * frames
    decreases frames
  {
    if frames > 0 {
      AirtimesIsProduct(airtime, frames - 1);
      assert airtime * frames == airtime * (frames - 1) + airtime;
    }
  }

  /** recompute_timeouts */
  function Recompute(t: Timer, airtime: nat, inFlight: nat): Timer {
    var flight := if inFlight == 0 then 1 else inFlight;
    var raw := Airtimes(airtime, flight + 1);
    var slack := raw + Quotient(raw, 4);
    var base := if slack == 0 then 1 else slack;
    t.(base := base, ceiling := base * TIMEOUT_CEILING_MULT, timeout := base)
  }

  function Arm(t: Timer): Timer {
    t.(deadline := Some(t.now + t.timeout))
  }

  /** The doubling of advance_time, capped at the ceiling. */
  function BackOff(t: Timer): Timer {
    t.(timeout := if t.timeout * 2 > t.ceiling then t.ceiling else t.timeout * 2)
  }

  function QueueRow(l: Link, row: Row): (r: Link)
    requires Shape(l)
    ensures Shape(r)
  {
    if |l.out| >= OUT_QUEUE_FRAMES then l else l.(out := l.out + [row])
  }

  /** queue_frame: refused when the ring is full or the frame is not canonical. */
  function QueueFrame(l: Link, f: Frame): (r: (Link, bool))
    requires Shape(l)
    ensures Shape(r.0)
  {
    if |l.out| >= OUT_QUEUE_FRAMES || !Canonical(f) then (l, false) else (l.(out := l.out + [Sent(f)]), true)
  }

  // ------------------------------------------------------------ duplicate cache

  /** dup_lookup: expired entries met before the hit are vacated. */
  function DupLookup(dup: seq<DupEntry>, now: nat, session: u32, message: u16): (r: (seq<DupEntry>, Option<Row>))
    ensures |r.0| == |dup|
    decreases |dup|
  {
    if dup == [] then (dup, None)
    else if dup[0].Held? && dup[0].expires > now && dup[0].session == session && dup[0].message == message then
      (dup, Some(dup[0].ack))
    else
      var rest := DupLookup(dup[1..], now, session, message);
      ([if dup[0].Held? && dup[0].expires <= now then Vacant else dup[0]] + rest.0, rest.1)
  }

  predicate Live(e: DupEntry, now: nat) {
    e.Held? && e.expires > now
  }

  // The slot dup_store overwrites, scanning from `index` with the earliest live entry seen so far.
  function DupVictim(dup: seq<DupEntry>, now: nat, session: u32, message: u16, index: nat,
      earliest: Option<nat>): (v: nat)
    requires index <= |dup| && 0 < |dup|
    requires earliest.Some? ==> earliest.value < |dup| && dup[earliest.value].Held?
    requires earliest.None? ==> index == 0
    ensures v < |dup|
    decreases |dup| - index
  {
    if index == |dup| then earliest.value
    else if !Live(dup[index], now) then index
    else if dup[index].session == session && dup[index].message == message then index
    else DupVictim(dup, now, session, message, index + 1,
                   if earliest.None? || dup[index].expires < dup[earliest.value].expires then Some(index) else earliest)
  }

  /** dup_store */
  function DupStore(dup: seq<DupEntry>, now: nat, airtime: nat, session: u32, message: u16,
      ack: Row): (r: seq<DupEntry>)
    requires 0 < |dup|
    ensures |r| == |dup|
  {
    dup[DupVictim(dup, now, session, message, 0, None) :=
      Held(session, message, now + airtime * DUP_CACHE_TTL_FRAMES, ack)]
  }

  // ------------------------------------------------------------ lifecycle

  function ClearRx(rx: Reassembly): Reassembly {
    rx.(active := false, message := 0, total := 0, count := 0, received := NoneSet(), segments := NoSegments(),
      ack := None)
  }

  function ClearTx(tx: Sender): Sender {
    tx.(active := false, started := false, message := 0, total := 0, base := 0, retries := 0,
        segments := NoSegments(), acked := NoneSet(), inflight := NoneSet())
  }

  function FirstMessage(role: Role): u16 {
    if role.Initiator? then 0 else 1
  }

  // kal_options after normalisation by kal_link_create.
  predicate ValidConfig(cfg: Config, window: nat) {
    && cfg.profile < PROFILE_COUNT && 0 < cfg.maxMessage <= MAX_MESSAGE_BYTES && 0 < cfg.airtime
    && 0 < cfg.maxRetries < 256 && MIN_WINDOW <= window <= MAX_WINDOW
  }

  const SAMPLE_RATE := 48000
  const HIGH_NORMAL: u8 := 5
  const DEFAULT_WINDOW := 4
  const DEFAULT_RETRIES := 5

  /** kal_options as the caller fills it in, without the choice of the modem. */
  datatype Options = Options(
    sampleRate: nat, maxMessage: nat, window: u16, maxRetries: u8, profile: u8, role: u8, highFrequency: bool,
      reserved: u8)

  datatype Admission = Refused(error: Result) | Admitted(cfg: Config, window: nat)

  /** kal_link_create up to the first allocation, with the airtime the modem measures: the options are admitted exactly
      when every field is in range, the high-frequency profile only on request, and then they are a valid configuration.
      */
  function Admit(o: Options, airtime: nat): (r: Admission)
    ensures r.Admitted? <==>
            && o.reserved == 0 && (o.sampleRate == 0 || o.sampleRate == SAMPLE_RATE)
              && o.maxMessage <= MAX_MESSAGE_BYTES
            && o.window <= MAX_WINDOW && o.profile < PROFILE_COUNT && (o.profile == HIGH_NORMAL ==> o.highFrequency)
              && o.role <= 1
    ensures r.Admitted? ==> ValidConfig(r.cfg, r.window)
  {
    var sampleRate := if o.sampleRate == 0 then SAMPLE_RATE else o.sampleRate;
    var maxMessage := if o.maxMessage == 0 then MAX_MESSAGE_BYTES else o.maxMessage;
    var window := if o.window == 0 then DEFAULT_WINDOW else o.window;
    var maxRetries := if o.maxRetries == 0 then DEFAULT_RETRIES else o.maxRetries;
    if o.reserved != 0 then Refused(Invalid)
    else if sampleRate != SAMPLE_RATE then Refused(Unsupported)
    else if maxMessage > MAX_MESSAGE_BYTES then Refused(Invalid)
    else if window < MIN_WINDOW || window > MAX_WINDOW then Refused(Invalid)
    else if o.profile >= PROFILE_COUNT then Refused(Invalid)
    else if o.profile == HIGH_NORMAL && !o.highFrequency then Refused(Unsupported)
    else if o.role != 0 && o.role != 1 then Refused(Invalid)
    else
      Admitted(Config(if o.role == 0 then Initiator else Responder, o.profile, maxRetries, maxMessage,
        if airtime == 0 then 1 else airtime),
               ClampWindow(window))
  }

  /** The link kal_link_create returns. */
  function Initial(cfg: Config, window: nat): (l: Link)
    requires ValidConfig(cfg, window)
    ensures Shape(l)
  {
    Link(cfg, window,
         Session(false, false, 0, ZeroChallenge(), FirstMessage(cfg.role), None, 0),
         Recompute(Timer(0, None, 0, 0, 0), cfg.airtime, window),
         Sender(false, false, Success, 0, 0, 0, 0, NoSegments(), NoneSet(), NoneSet()),
         Reassembly(false, 0, 0, 0, 0, NoneSet(), NoSegments(), None),
         NoDuplicates(), Delivery(false, false, []), [], None, false)
  }

  /** kal_link_reset; the negotiated window and the clock survive it. */
  function Reset(l: Link): (r: Link)
    requires Shape(l)
    ensures Shape(r)
  {
    l.(session := Session(false, false, 0, ZeroChallenge(), FirstMessage(l.cfg.role), None, 0),
       timer := Recompute(l.timer.(deadline := None), l.cfg.airtime, l.window),
       tx := ClearTx(l.tx).(status := Success),
       rx := ClearRx(l.rx),
       dup := NoDuplicates(),
       delivery := Delivery(false, false, []),
       out := [],
       heard := None,
       cancelSeen := false)
  }

  // ------------------------------------------------------------ session opening

  function HelloFrame(l: Link): Frame
    requires Shape(l)
  {
    Frame(HELLO, l.session.id, l.session.nextMessage, 0, CapabilityPack(l.cfg.profile, l.window), 0,
      l.session.challenge)
  }

  /** open_session */
  function OpenSession(l: Link, entropy: Option<Entropy>): (r: (Link, Result))
    requires Shape(l)
    requires entropy.Some? ==> |entropy.value.challenge| == CHALLENGE_BYTES
    ensures Shape(r.0)
  {
    if l.cfg.role != Initiator then (l, Protocol)
    else if entropy.None? then (l, ModemFailure)
    else
      var id: u32 := if entropy.value.session == 0 then 1 else entropy.value.session;
      var named := l.(session := l.session.(id := id, challenge := entropy.value.challenge));
      var (queued, ok) := QueueFrame(named, HelloFrame(named));
      if !ok then (named, Busy)
      else
        (queued.(session := named.session.(pending := true, helloRetries := 0),
                 timer := Arm(Recompute(l.timer, l.cfg.airtime, 1))), Success)
  }

  // ------------------------------------------------------------ transmit

  function DataFrame(l: Link, sequence: nat): Frame
    requires Shape(l) && sequence < l.tx.total
  {
    Frame(DATA, l.session.id, l.tx.message, sequence, l.tx.total,
          if sequence == l.tx.total - 1 then FLAG_DATA_FINAL else 0, l.tx.segments[sequence])
  }

  /** The loop of queue_window from `sequence` on, with `queued` frames already queued by this call. */
  function QueueFrom(l: Link, sequence: nat, queued: nat): (r: (Link, nat))
    requires Shape(l)
    ensures Shape(r.0)
    decreases MAX_SEGMENTS - sequence
  {
    if sequence >= l.tx.total || queued >= l.window then (l, queued)
    else if l.tx.acked[sequence] || l.tx.inflight[sequence] then QueueFrom(l, sequence + 1, queued)
    else
      var (next, ok) := QueueFrame(l, DataFrame(l, sequence));
      if !ok then (l, queued)
      else QueueFrom(next.(tx := next.tx.(inflight := next.tx.inflight[sequence := true])), sequence + 1, queued + 1)
  }

  // queue_window changes nothing but the ring and the in-flight marks.
  lemma {:induction false} QueueFromFrame(l: Link, sequence: nat, queued: nat)
    requires Shape(l)
    ensures var r := QueueFrom(l, sequence, queued).0;
            r == l.(out := r.out, tx := l.tx.(inflight := r.tx.inflight))
    ensures QueueFrom(l, sequence, queued).1 >= queued
    decreases MAX_SEGMENTS - sequence
  {
    hide DataFrame, Canonical;
    if sequence < l.tx.total && queued < l.window {
      if l.tx.acked[sequence] || l.tx.inflight[sequence] {
        QueueFromFrame(l, sequence + 1, queued);
      } else if QueueFrame(l, DataFrame(l, sequence)).1 {
        var next := QueueFrame(l, DataFrame(l, sequence)).0;
        QueueFromFrame(next.(tx := next.tx.(inflight := next.tx.inflight[sequence := true])), sequence + 1, queued + 1);
      }
    }
  }

  /** start_or_resume_tx */
  function StartOrResume(l: Link, retransmission: bool): (r: Link)
    requires Shape(l)
    ensures Shape(r)
  {
    var (next, queued) := QueueFrom(l, l.tx.base, 0);
    if queued == 0 then next
    else
      var timer := if retransmission then l.timer else Recompute(l.timer, l.cfg.airtime, queued);
      next.(tx := next.tx.(started := true), timer := Arm(timer))
  }

  function CancelFrame(l: Link, reason: u16): Frame {
    Frame(CANCEL, l.session.id, l.tx.message, 0, reason, 0, [])
  }

  /** fail_tx */
  function FailTx(l: Link, status: Result, reason: u16): (r: Link)
    requires Shape(l)
    ensures Shape(r)
  {
    QueueFrame(l, CancelFrame(l, reason)).0
      .(tx := ClearTx(l.tx).(status := status), timer := l.timer.(deadline := None))
  }

  // message || SHA-256(message)
  function Transfer(message: seq<byte>): (t: seq<byte>)
    ensures |t| == |message| + DIGEST_BYTES
  {
    message + Sha256.Digest(message)
  }

  // The chunk of `transfer` kal_send cuts for segment i.
  function Chunk(transfer: seq<byte>, i: nat): seq<byte> {
    var begin := i * PAYLOAD_BYTES;
    if begin >= |transfer| then []
    else if |transfer| - begin > PAYLOAD_BYTES then transfer[begin..begin + PAYLOAD_BYTES]
    else transfer[begin..]
  }

  // The segment buffer after kal_send: `total` chunks, the other rows clear.
  function Chunks(transfer: seq<byte>, total: nat): (s: seq<seq<byte>>)
    ensures |s| == MAX_SEGMENTS
  {
    seq(MAX_SEGMENTS, i => if 0 <= i < total then Chunk(transfer, i) else [])
  }

  // The transfer set up for a message, nothing queued yet.
  function Load(l: Link, message: seq<byte>): (r: Link)
    requires Shape(l) && |message| <= MAX_MESSAGE_BYTES
    ensures Shape(r)
  {
    var total := SegmentCount(|message|).value;
    l.(tx := ClearTx(l.tx).(active := true, status := Busy, message := l.session.nextMessage, total := total,
                            segments := Chunks(Transfer(message), total)))
  }

  // The tail of kal_send: transmit, open a session first, or wait for one.
  function Dispatch(l: Link, entropy: Option<Entropy>): (r: (Link, Result))
    requires Shape(l)
    requires entropy.Some? ==> |entropy.value.challenge| == CHALLENGE_BYTES
    ensures Shape(r.0)
  {
    if l.session.open then (StartOrResume(l, false), Success)
    else if l.cfg.role.Initiator? && !l.session.pending then
      var begun := OpenSession(l, entropy);
      if begun.1 != Success then (begun.0.(tx := ClearTx(begun.0.tx).(status := begun.1)), begun.1)
      else begun
    else (l, Success)
  }

  /** kal_send */
  function Send(l: Link, message: seq<byte>, entropy: Option<Entropy>): (r: (Link, Result))
    requires Shape(l)
    requires entropy.Some? ==> |entropy.value.challenge| == CHALLENGE_BYTES
    ensures Shape(r.0)
  {
    if |message| > l.cfg.maxMessage then (l, Invalid)
    else if l.tx.active then (l, Busy)
    else Dispatch(Load(l, message), entropy)
  }

  /** kal_beacon */
  function Beacon(l: Link, payload: seq<byte>): (r: (Link, Result))
    requires Shape(l)
    ensures Shape(r.0)
  {
    if payload == [] || |payload| > MAX_BEACON_BYTES then (l, Invalid)
    else
      var (queued, ok) := QueueFrame(l, Frame(BEACON, l.session.id, l.session.nextMessage, 0, 0, 0, payload));
      (queued, if ok then Success else Busy)
  }

  /** kal_cancel */
  function Cancel(l: Link, reason: u16): (r: (Link, Result))
    requires Shape(l)
    ensures Shape(r.0)
  {
    if reason > CANCEL_REASON_MAX then (l, Invalid)
    else
      var failed := FailTx(l, Cancelled, reason);
      (failed.(rx := ClearRx(failed.rx)), Success)
  }

  // ------------------------------------------------------------ receive

  /** The first index of from..limit that is not set, or limit: first_missing and the tx_base loop. */
  function FirstClear(flags: seq<bool>, from: nat, limit: nat): (i: nat)
    requires from <= limit <= |flags|
    ensures from <= i <= limit
    ensures forall j | from <= j < i :: flags[j]
    ensures i < limit ==> !flags[i]
    decreases limit - from
  {
    if from < limit && flags[from] then FirstClear(flags, from + 1, limit) else from
  }

  // Bits bit..15 of the selective bitmap, as a number shifted down by `bit`.
  function Bitmap(received: seq<bool>, base: nat, total: nat, bit: nat): (b: nat)
    requires total <= |received| && bit <= 16
    ensures b < Pow2(16 - bit)
    decreases 16 - bit, |received|
  {
    if bit == 16 || base + 1 + bit >= total then Pow2Positive(16 - bit); 0
    else (if received[base + 1 + bit] then 1 else 0) + 2 * Bitmap(received, base, total, bit + 1)
  }

  function Pow2(n: nat): nat {
    if n == 0 then 1 else 2 * Pow2(n - 1)
  }

  lemma Pow2Positive(n: nat)
    ensures Pow2(n) > 0
  {
  }

  lemma Pow16()
    ensures Pow2(16) == 0x1_0000
  {
    assert Pow2(4) == 16;
    assert Pow2(8) == 16 * Pow2(4);
    assert Pow2(12) == 16 * Pow2(8);
  }

  predicate HasBit(v: nat, bit: nat)
    decreases bit
  {
    if bit == 0 then Modulo(v, 2) == 1 else HasBit(Quotient(v, 2), bit - 1)
  }

  function PartialAck(rx: Reassembly): Frame
    requires ReassemblyShape(rx)
  {
    var base := FirstClear(rx.received, 0, rx.total);
    Pow16();
    Frame(ACK, rx.session, rx.message, base, Bitmap(rx.received, base, rx.total, 0), 0, [])
  }

  /** queue_partial_ack */
  function QueuePartialAck(l: Link): (r: Link)
    requires Shape(l)
    ensures Shape(r)
  {
    var ack := PartialAck(l.rx);
    if !Canonical(ack) then l else QueueRow(l.(rx := l.rx.(ack := Some(ack))), Sent(ack))
  }

  /** The copy loop of finish_rx_message from segment i on; None when a segment is missing or the bound is passed. */
  function Assemble(rx: Reassembly, i: nat, sofar: seq<byte>): Option<seq<byte>>
    requires ReassemblyShape(rx) && i <= rx.total
    decreases rx.total - i
  {
    if i == rx.total then Some(sofar)
    else if !rx.received[i] || |sofar| + |rx.segments[i]| > TRANSFER_MAX_BYTES then None
    else Assemble(rx, i + 1, sofar + rx.segments[i])
  }

  // The application message of a transfer, or None when finish_rx_message refuses it.
  function Unwrap(transfer: seq<byte>, maxMessage: nat, total: nat): Option<seq<byte>> {
    if |transfer| < DIGEST_BYTES then None
    else
      var length := |transfer| - DIGEST_BYTES;
      if length > maxMessage || SegmentCount(length) != Some(total) then None
      else if Sha256.Digest(transfer[..length]) != transfer[length..] then None
      else Some(transfer[..length])
  }

  function Accepted(l: Link): Option<seq<byte>>
    requires Shape(l)
  {
    match Assemble(l.rx, 0, [])
    case None => None
    case Some(transfer) => Unwrap(transfer, l.cfg.maxMessage, l.rx.total)
  }

  function DeliveredAck(rx: Reassembly): Frame
    requires ReassemblyShape(rx)
  {
    Frame(ACK, rx.session, rx.message, rx.total, 0, FLAG_ACK_DELIVERED, [])
  }

  // Staging, acknowledging and remembering an accepted message.
  function Deliver(l: Link, message: seq<byte>): (r: (Link, Result))
    requires Shape(l)
    ensures Shape(r.0)
  {
    var staged := l.(delivery := Delivery(true, false, message));
    if !Canonical(DeliveredAck(l.rx)) then (staged.(rx := ClearRx(l.rx)), Integrity)
    else
      var row := Sent(DeliveredAck(l.rx));
      (QueueRow(staged, row)
       .(rx := ClearRx(l.rx), dup := DupStore(l.dup, l.timer.now, l.cfg.airtime, l.rx.session, l.rx.message, row)),
         Delivered)
  }

  /** finish_rx_message */
  function FinishRx(l: Link): (r: (Link, Result))
    requires Shape(l)
    ensures Shape(r.0)
  {
    match Accepted(l)
    case None => (l.(rx := ClearRx(l.rx)), Integrity)
    case Some(message) => Deliver(l, message)
  }

  // A segment of the current message that is already stored.
  function RepeatSegment(l: Link, f: Frame): (r: (Link, Result))
    requires Shape(l) && f.sequence < l.rx.total
    ensures Shape(r.0)
  {
    if l.rx.segments[f.sequence] != f.payload then (l, Protocol)
    else if l.rx.ack.Some? then (QueueRow(l, Sent(l.rx.ack.value)), Success)
    else (QueuePartialAck(l), Success)
  }

  function Stored(rx: Reassembly, f: Frame): (r: Reassembly)
    requires ReassemblyShape(rx) && f.sequence < rx.total
    ensures ReassemblyShape(r)
  {
    rx.(received := rx.received[f.sequence := true], segments := rx.segments[f.sequence := f.payload],
      count := rx.count + 1)
  }

  // A partial acknowledgement is due every `window` segments.
  predicate AckDue(count: nat, window: nat)
    requires 0 < window
  {
    Modulo(count, window) == 0
  }

  // A segment of the current message that was missing.
  function NewSegment(l: Link, f: Frame): (r: (Link, Result))
    requires Shape(l) && f.sequence < l.rx.total
    ensures Shape(r.0)
  {
    hide AckDue, FinishRx, QueuePartialAck;
    var stored := l.(rx := Stored(l.rx, f));
    if stored.rx.count == stored.rx.total then FinishRx(stored)
    else if AckDue(stored.rx.count, l.window) then (QueuePartialAck(stored), Success)
    else (stored, Success)
  }

  function Begun(rx: Reassembly, f: Frame): (r: Reassembly)
    requires ReassemblyShape(rx) && f.kind == DATA && Canonical(f)
    ensures ReassemblyShape(r)
  {
    rx.(active := true, session := f.session, message := f.message, total := f.value)
  }

  // A DATA frame for a message the cache does not know; rx already cleared of an abandoned message.
  function StoreSegment(l: Link, f: Frame): (r: (Link, Result))
    requires Shape(l) && f.kind == DATA && Canonical(f)
    ensures Shape(r.0)
  {
    if !l.rx.active && l.delivery.ready then (l, Success)
    else if l.rx.active && l.rx.total != f.value then (l, Protocol)
    else
      PlaceSegment(if l.rx.active then l else l.(rx := Begun(l.rx, f)), f)
  }

  function PlaceSegment(l: Link, f: Frame): (r: (Link, Result))
    requires Shape(l)
    ensures Shape(r.0)
  {
    if f.sequence >= l.rx.total then (l, Protocol)
    else if l.rx.received[f.sequence] then RepeatSegment(l, f)
    else NewSegment(l, f)
  }

  /** handle_data */
  function HandleData(l: Link, f: Frame): (r: (Link, Result))
    requires Shape(l) && f.kind == DATA && Canonical(f)
    ensures Shape(r.0)
  {
    hide DupLookup, StoreSegment, Canonical;
    if !l.session.open || f.session != l.session.id then (l, Protocol)
    else
      var (dup, cached) := DupLookup(l.dup, l.timer.now, f.session, f.message);
      var looked := l.(dup := dup);
      if cached.Some? then (QueueRow(looked, cached.value), Success)
      else if l.rx.active && f.message != l.rx.message then StoreSegment(looked.(rx := ClearRx(l.rx)), f)
      else StoreSegment(looked, f)
  }

  // The segments a partial ACK names.
  predicate Names(f: Frame, i: nat) {
    i < f.sequence || (f.sequence < i <= f.sequence + 16 && HasBit(f.value, i - f.sequence - 1))
  }

  function AckedAfter(tx: Sender, f: Frame): (acked: seq<bool>)
    requires SenderShape(tx)
    ensures |acked| == MAX_SEGMENTS
  {
    seq(MAX_SEGMENTS, i requires 0 <= i < MAX_SEGMENTS => tx.acked[i] || (i < tx.total && Names(f, i)))
  }

  function InflightAfter(tx: Sender, f: Frame): (inflight: seq<bool>)
    requires SenderShape(tx)
    ensures |inflight| == MAX_SEGMENTS
  {
    seq(MAX_SEGMENTS, i requires 0 <= i < MAX_SEGMENTS => tx.inflight[i] && !(i < tx.total && Names(f, i)))
  }

  function MarkAcked(tx: Sender, f: Frame): (r: Sender)
    requires SenderShape(tx)
    ensures SenderShape(r)
  {
    tx.(acked := AckedAfter(tx, f), inflight := InflightAfter(tx, f),
        base := FirstClear(AckedAfter(tx, f), tx.base, tx.total), retries := 0)
  }

  // Ids of one role advance by two, within 16 bits.
  function NextMessage(message: u16): u16 {
    if message + 2 < 0x1_0000 then message + 2 else message + 2 - 0x1_0000
  }

  /** handle_ack */
  function HandleAck(l: Link, f: Frame): (r: (Link, Result))
    requires Shape(l)
    ensures Shape(r.0)
  {
    if !l.tx.active || f.session != l.session.id || f.message != l.tx.message then (l, Protocol)
    else if Flagged(f) then
      if f.sequence != l.tx.total then (l, Protocol)
      else
        (l.(tx := ClearTx(l.tx).(status := Success),
            timer := l.timer.(deadline := None),
            session := l.session.(nextMessage := NextMessage(l.session.nextMessage))), Success)
    else if f.sequence > l.tx.total then (l, Protocol)
    else
      var marked := l.(tx := MarkAcked(l.tx, f), timer := Recompute(l.timer, l.cfg.airtime, l.window));
      var resumed := StartOrResume(marked, false);
      (if resumed.timer.deadline.None? then resumed.(timer := Arm(resumed.timer)) else resumed, Success)
  }

  function HelloAckFrame(l: Link, message: u16): Frame
    requires Shape(l)
  {
    Frame(HELLO_ACK, l.session.id, message, 0, CapabilityPack(l.cfg.profile, l.window), 0, l.session.challenge)
  }

  function Negotiated(l: Link, f: Frame): nat {
    var peer := CapabilityWindow(f.value);
    ClampWindow(if peer < l.window then peer else l.window)
  }

  function Named(l: Link, f: Frame): (r: Link)
    requires Shape(l) && f.kind == HELLO && Canonical(f)
    ensures Shape(r)
  {
    l.(session := l.session.(id := f.session, challenge := f.payload), window := Negotiated(l, f))
  }

  // Answer a HELLO whose session has been taken over, and open.
  function Answered(l: Link, reply: Frame): (r: Link)
    requires Shape(l)
    ensures Shape(r)
  {
    var begun := QueueRow(l, Sent(reply))
      .(session := l.session.(helloAck := Some(reply), open := true),
        timer := Recompute(l.timer, l.cfg.airtime, l.window));
    if l.tx.active && !l.tx.started then StartOrResume(begun, false) else begun
  }

  // The tail of handle_hello: take the peer's session and answer it.
  function AdoptSession(l: Link, f: Frame): (r: (Link, Result))
    requires Shape(l) && f.kind == HELLO && Canonical(f)
    ensures Shape(r.0)
  {
    var reply := HelloAckFrame(Named(l, f), f.message);
    if !Canonical(reply) then (Named(l, f), Protocol) else (Answered(Named(l, f), reply), Success)
  }

  function ReplayHelloAck(l: Link): (r: Link)
    requires Shape(l)
    ensures Shape(r)
  {
    if l.session.helloAck.Some? then QueueRow(l, Sent(l.session.helloAck.value)) else l
  }

  function Yield(l: Link): (r: Link)
    requires Shape(l)
    ensures Shape(r)
  {
    l.(session := l.session.(pending := false), tx := ClearTx(l.tx))
  }

  // The order in which colliding openings are ranked.
  predicate Below(a: u32, b: u32) {
    a < b
  }

  // Two openings at once: this link gives its own up for a smaller session id.
  function Collide(l: Link, f: Frame): (r: (Link, Result))
    requires Shape(l) && f.kind == HELLO && Canonical(f)
    ensures Shape(r.0)
  {
    if !Below(f.session, l.session.id) then (l, Success)
    else AdoptSession(Yield(l), f)
  }

  // A new session starts with nothing received and nothing remembered.
  function Replace(l: Link, f: Frame): (r: (Link, Result))
    requires Shape(l) && f.kind == HELLO && Canonical(f)
    ensures Shape(r.0)
  {
    AdoptSession(l.(rx := ClearRx(l.rx), dup := NoDuplicates()), f)
  }

  /** handle_hello */
  function HandleHello(l: Link, f: Frame): (r: (Link, Result))
    requires Shape(l) && f.kind == HELLO && Canonical(f)
    ensures Shape(r.0)
  {
    if CapabilityProfile(f.value) != l.cfg.profile then (l, Protocol)
    else if l.cfg.role.Initiator? && l.session.pending then Collide(l, f)
    else if l.session.open && f.session == l.session.id then (ReplayHelloAck(l), Success)
    else if l.session.open && l.cfg.role.Initiator? then (l, Protocol)
    else if l.session.open then Replace(l, f)
    else AdoptSession(l, f)
  }

  /** handle_hello_ack */
  function HandleHelloAck(l: Link, f: Frame): (r: (Link, Result))
    requires Shape(l)
    ensures Shape(r.0)
  {
    if !l.session.pending || f.session != l.session.id then (l, Protocol)
    else if f.payload != l.session.challenge then (l, Protocol)
    else if CapabilityProfile(f.value) != l.cfg.profile then (l, Protocol)
    else
      var window := Negotiated(l, f);
      var begun := l.(session := l.session.(pending := false, open := true), window := window,
                       timer := Recompute(l.timer, l.cfg.airtime, window).(deadline := None));
      (if l.tx.active then StartOrResume(begun, false) else begun, Success)
  }

  /** handle_cancel */
  function HandleCancel(l: Link, f: Frame): (r: (Link, Result))
    requires Shape(l)
    ensures Shape(r.0)
  {
    if !l.session.open || f.session != l.session.id then (l, Protocol)
    else
      (l.(rx := ClearRx(l.rx), tx := ClearTx(l.tx).(status := Cancelled), timer := l.timer.(deadline := None),
          cancelSeen := true), Cancelled)
  }

  /** handle_beacon */
  function HandleBeacon(l: Link, f: Frame): (r: (Link, Result))
    requires Shape(l)
    ensures Shape(r.0)
  {
    if l.delivery.ready then (l, Success)
    else
      var (dup, cached) := DupLookup(l.dup, l.timer.now, f.session, f.message);
      if cached.Some? then (l.(dup := dup), Success)
      else
        (l.(delivery := Delivery(true, true, f.payload),
            dup := DupStore(dup, l.timer.now, l.cfg.airtime, f.session, f.message, Blank)), Delivered)
  }

  function HandleFrame(l: Link, f: Frame): (r: (Link, Result))
    requires Shape(l) && Canonical(f)
    ensures Shape(r.0)
  {
    if f.kind == HELLO then HandleHello(l, f)
    else if f.kind == HELLO_ACK then HandleHelloAck(l, f)
    else if f.kind == DATA then HandleData(l, f)
    else if f.kind == ACK then HandleAck(l, f)
    else if f.kind == CANCEL then HandleCancel(l, f)
    else HandleBeacon(l, f)
  }

  /** handle_frame behind the repeat guard of kal_rx_push_s16. */
  function Hear(l: Link, raw: Codec.Raw): (r: (Link, Result))
    requires Shape(l)
    ensures Shape(r.0)
  {
    if l.heard.Some? && l.heard.value.raw == raw && l.timer.now - l.heard.value.at < 2 * l.cfg.airtime then (l, Success)
    else
      var noted := l.(heard := Some(Heard(raw, l.timer.now)));
      var decoded := Codec.Decode(raw);
      if decoded.Bad? then (noted, Protocol) else HandleFrame(noted, decoded.frame)
  }

  // ------------------------------------------------------------ timers, output, collection

  function ExpireHello(l: Link): (r: Link)
    requires Shape(l)
    ensures Shape(r)
  {
    if l.session.helloRetries >= l.cfg.maxRetries then
      l.(session := l.session.(pending := false), tx := ClearTx(l.tx).(status := Timeout))
    else
      QueueFrame(l, HelloFrame(l)).0
        .(session := l.session.(helloRetries := l.session.helloRetries + 1), timer := Arm(BackOff(l.timer)))
  }

  function ExpireData(l: Link): (r: Link)
    requires Shape(l)
    ensures Shape(r)
  {
    if l.tx.retries >= l.cfg.maxRetries then FailTx(l, Timeout, CANCEL_TIMEOUT)
    else StartOrResume(l.(tx := l.tx.(retries := l.tx.retries + 1, inflight := NoneSet()), timer := BackOff(l.timer)),
      true)
  }

  predicate Due(l: Link, time: nat) {
    l.timer.deadline.Some? && l.timer.deadline.value <= (if time > l.timer.now then time else l.timer.now)
  }

  /** advance_time */
  function AdvanceTime(l: Link, time: nat): (r: Link)
    requires Shape(l)
    ensures Shape(r)
  {
    var moved := l.(timer := l.timer.(now := if time > l.timer.now then time else l.timer.now));
    if !Due(l, time) then moved
    else
      var fired := moved.(timer := moved.timer.(deadline := None));
      if l.session.pending then ExpireHello(fired)
      else if l.tx.active && l.tx.started then ExpireData(fired)
      else fired
  }

  /** The dequeue of kal_tx_pull_s16: the oldest row leaves the ring for the air. */
  function TakeRow(l: Link): (r: (Link, Option<Row>))
    requires Shape(l)
    ensures Shape(r.0)
  {
    if l.out == [] then (l, None) else (l.(out := l.out[1..]), Some(l.out[0]))
  }

  /** kal_receive */
  function Collect(l: Link, capacity: nat): (r: (Link, Result, seq<byte>))
    requires Shape(l)
    ensures Shape(r.0)
  {
    if !l.delivery.ready then (l, WantInput, [])
    else if capacity < |l.delivery.message| then (l, Invalid, [])
    else (l.(delivery := Delivery(false, false, [])), Success, l.delivery.message)
  }
}
