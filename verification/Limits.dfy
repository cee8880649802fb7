/**
  Guarantees the protocol does not give, each with the inputs that show it.
 */
module Limits {
  import opened Bytes
  import opened Wire
  import opened LinkSpec
  import opened Reachable
  import opened Invariant
  import opened Effects
  import opened Integrity
  import opened Receiving
  import opened Channel
  import opened DupCache
  import Codec
  import EndToEnd
  import Runs
  import Sessions
  import Timers

  // A receiver that remembers a key replays its receipt for any DATA of that key and takes nothing in.
  lemma ReceiptReplayed(y: Link, f: Frame, receipt: Frame)
    requires Inv(y) && f.kind == DATA && Canonical(f) && y.session.open && f.session == y.session.id
    requires DupLookup(y.dup, y.timer.now, f.session, f.message).1 == Some(Sent(receipt))
    ensures var (r, status) := HandleData(y, f);
      && status == Success && r.delivery == y.delivery && r.rx == y.rx
      && (|y.out| < OUT_QUEUE_FRAMES ==> r.out == y.out + [Sent(receipt)])
    ensures receipt.kind == ACK && receipt.flags == FLAG_ACK_DELIVERED && receipt.session == f.session
      && receipt.message == f.message
  {
    hide TxInv, RxInv, Canonical, DupLookup, StoreSegment;
    LookedInv(y, f.session, f.message);
  }

  /** Why the theorems need one message per key. When a message id is used again while the receiver still remembers its
      first message, the second message is never delivered, and the receipt replayed for its frames ends its transfer in
      KAL_OK exactly when the two messages have equally many segments. */
  lemma ReusedIdSucceedsUndelivered(x: Link, y: Link, f: Frame, receipt: Frame)
    requires Inv(x) && Inv(y) && f.kind == DATA && Canonical(f) && y.session.open && f.session == y.session.id
    requires DupLookup(y.dup, y.timer.now, f.session, f.message).1 == Some(Sent(receipt))
    requires x.tx.active && x.session.id == f.session && x.tx.message == f.message
    ensures var (r, status) := HandleData(y, f); status == Success && r.delivery == y.delivery && r.rx == y.rx
    ensures var r := HandleAck(x, receipt).0; r.tx.status == Success && !r.tx.active <==> receipt.sequence == x.tx.total
  {
    hide RxInv, RowsInv, SessionInv, Canonical, DupLookup, HandleData, StartOrResume, MarkAcked, NoneSet, NoSegments,
      Fits;
    ReceiptReplayed(y, f, receipt);
  }

  lemma {:induction false} OtherKeyMissing(dup: seq<DupEntry>, now: nat, airtime: nat, session: u32, message: u16,
      ack: Row, other: Frame)
    requires 0 < |dup| && Missing(dup, now, other.session, other.message)
    requires session != other.session || message != other.message
    ensures Missing(DupStore(dup, now, airtime, session, message, ack), now, other.session, other.message)
  {
    hide DupVictim, Live;
  }

  /** A beacon that arrives in mid-reassembly is staged; the message that then completes replaces it uncollected. */
  lemma BeaconLostBehindMessage(l: Link, beacon: Frame, f: Frame)
    requires Inv(l) && beacon.kind == BEACON && f.kind == DATA && Canonical(f) && l.rx.active
      && f.message == l.rx.message && !l.delivery.ready
    requires DupLookup(l.dup, l.timer.now, beacon.session, beacon.message).1.None?
    requires beacon.session != f.session || beacon.message != f.message
    requires Completes(l, f) && Verified(Whole(l.rx, f), l.cfg.maxMessage).Some?
    ensures var m := HandleBeacon(l, beacon).0;
      && m.delivery == Delivery(true, true, beacon.payload)
      && HandleData(m, f).0.delivery == Delivery(true, false, Verified(Whole(l.rx, f), l.cfg.maxMessage).value)
  {
    hide TxInv, RxInv, SessionInv, RowsInv, Canonical, DupLookup, DupStore, HandleData, Verified, Whole, Last;
    var m := HandleBeacon(l, beacon).0;
    HandleBeaconInv(l, beacon);
    var pruned := DupLookup(l.dup, l.timer.now, beacon.session, beacon.message).0;
    LookupMisses(l.dup, l.timer.now, f.session, f.message);
    LookupPrunes(l.dup, l.timer.now, beacon.session, beacon.message);
    OtherKeyMissing(pruned, l.timer.now, l.cfg.airtime, beacon.session, beacon.message, Blank, f);
    LookupMisses(m.dup, m.timer.now, f.session, f.message);
    DeliveryImpliesIntegrity(m, f);
  }

  lemma PendingCollides(l: Link, f: Frame)
    requires Inv(l) && l.session.pending && f.kind == HELLO && Canonical(f)
      && CapabilityProfile(f.value) == l.cfg.profile
    ensures HandleHello(l, f) == Collide(l, f)
  {
    hide TxInv, RxInv, RowsInv, Shape, Canonical, Collide, AdoptSession, CapabilityProfile;
  }

  /** The initiator that yields drops its message but leaves its status at KAL_ERR_BUSY. */
  lemma YieldKeepsBusy(l: Link, f: Frame)
    requires Inv(l) && l.session.pending && l.tx.active
    requires f.kind == HELLO && Canonical(f) && CapabilityProfile(f.value) == l.cfg.profile
    ensures var r := HandleHello(l, f).0; (!r.tx.active <==> Below(f.session, l.session.id)) && r.tx.status == Busy
  {
    hide TxInv, RxInv, RowsInv, SessionInv, Canonical, AdoptSession, HandleHello, Shape, CapabilityProfile, Below;
    PendingCollides(l, f);
    EndToEnd.HelloKeepsBusy(l, f);
    if Below(f.session, l.session.id) {
      YieldInv(l);
      InvShape(Yield(l));
      Sessions.AdoptSessionSession(Yield(l), f);
    }
  }

  /** Initiators that happen to draw one session id yield on neither side: each ignores the other's HELLO. */
  lemma EqualIdsNeitherYields(l: Link, f: Frame)
    requires Inv(l) && l.session.pending && f.kind == HELLO && Canonical(f)
      && CapabilityProfile(f.value) == l.cfg.profile
    requires f.session == l.session.id
    ensures HandleHello(l, f) == (l, Success)
  {
    hide TxInv, RxInv, RowsInv, SessionInv, Canonical, AdoptSession, HandleHello, Shape, CapabilityProfile;
    PendingCollides(l, f);
  }

  // A session replaced in mid-transfer carries the transfer over as it is.
  lemma ReplacedKeepsTransfer(l: Link, f: Frame)
    requires Inv(l) && Replacing(l, f) && Canonical(f) && l.tx.active
    ensures var r := HandleHello(l, f).0;
            r.tx.active && r.session.id == f.session && r.tx.message == l.tx.message && r.tx.acked == l.tx.acked
              && r.tx.base == l.tx.base
  {
    hide TxInv, RxInv, RowsInv, SessionInv, Canonical, AdoptSession, NoneSet, NoSegments, CapabilityProfile,
      NoDuplicates;
    PendingNotOpen(l);
    var emptied := l.(rx := ClearRx(l.rx), dup := NoDuplicates());
    Sessions.AdoptSessionSession(emptied, f);
    EndToEnd.AdoptKeepsTransfer(emptied, f);
  }

  lemma HearReplaces(l: Link, raw: Codec.Raw)
    requires Inv(l) && l.tx.active && HeardFrame(l, raw).Some? && Replacing(l, HeardFrame(l, raw).value)
    ensures var f, r := HeardFrame(l, raw).value, Hear(l, raw).0;
            r.tx.active && r.session.id == f.session && r.tx.message == l.tx.message && r.tx.acked == l.tx.acked
  {
    hide TxInv, RxInv, RowsInv, SessionInv, HandleHello, Canonical, Codec.Decode, CapabilityProfile;
    NotedInv(l, Some(Heard(raw, l.timer.now)));
    ReplacedKeepsTransfer(l.(heard := Some(Heard(raw, l.timer.now))), HeardFrame(l, raw).value);
  }

  // Every segment x holds acknowledged is backed by y.
  predicate AllBacked(x: Node, y: Node)
    requires Shape(x.link) && Shape(y.link)
  {
    forall j | 0 <= j < MAX_SEGMENTS && x.link.tx.acked[j] :: Backs(y, TxKey(x.link), j)
  }

  /** A HELLO that replaces the session in mid-transfer leaves the acknowledged set to the new session, of which the
      peer has nothing yet: acknowledgements are sound across it exactly when no segment had been acknowledged. */
  lemma ReplacedSessionKeepsAcks(x: Node, y: Node, i: Input)
    requires Inv(x.link) && Shape(y.link) && i.Receive? && x.link.tx.active
    requires HeardFrame(x.link, i.raw).Some? && Replacing(x.link, HeardFrame(x.link, i.raw).value)
    requires !Concerns(y, Key(HeardFrame(x.link, i.raw).value.session, x.link.tx.message))
    ensures ValidInput(i) && After(x, i).link.tx.active && After(x, i).link.tx.acked == x.link.tx.acked
    ensures AllBacked(After(x, i), y) <==> !AnyAcked(x.link.tx)
  {
    hide TxInv, RxInv, RowsInv, SessionInv, Step, Hear, HeardFrame, Replacing, AirAfter, SentAfter, StagedAfter,
      DroppedAfter, CarriedAfter;
    StepIsHear(x.link, i);
    HearReplaces(x.link, i.raw);
    var k, n := Key(HeardFrame(x.link, i.raw).value.session, x.link.tx.message), After(x, i);
    assert TxKey(n.link) == k;
    assert forall j: nat :: !Backs(y, k, j);
  }

  // The peer has nothing under a key the sender never used.
  lemma NothingUnderUnusedKey(x: Node, y: Node, k: Key)
    requires Flow(x, y) && k !in x.sent
    ensures Shape(y.link) && !Concerns(y, k)
  {
    hide TxInv, RxInv, RowsInv, SessionInv, SenderGood, RepliesGood, AcksBacked, SegmentOf;
  }

  /** handle_cancel looks at the session alone: a CANCEL of the open session gives the reassembly up whichever message
      it names. */
  lemma StaleCancelDrops(y: Node, i: Input)
    requires Inv(y.link) && y.link.rx.active && HearsKind(y.link, i, CANCEL)
    requires HeardFrame(y.link, i.raw).value.session == y.link.session.id
    ensures ValidInput(i) && Drops(y.link, i)
    ensures var n, k := After(y, i), RxKey(y.link.rx); !n.link.rx.active && k in n.dropped && n.staged == y.staged
  {
    hide TxInv, RxInv, RowsInv, Step, HeardFrame, Replacing, DataDrops, AirAfter, SentAfter, CarriedAfter, NoneSet,
      NoSegments;
    StepFate(y.link, i);
    StepKeeps(y.link, i);
  }

  /** Acknowledgements across a reassembly given up: when the peer drops what it holds of the transfer, and has not
      staged it, they stay sound exactly when no segment had been acknowledged. */
  lemma DroppedReassemblyKeepsAcks(x: Node, y: Node, i: Input)
    requires Inv(x.link) && Inv(y.link) && ValidInput(i) && Drops(y.link, i)
    requires x.link.tx.active && TxKey(x.link) == RxKey(y.link.rx) && TxKey(x.link) !in y.staged
    ensures EndToEnd.AllRest(x, After(y, i)) <==> !AnyAcked(x.link.tx)
  {
    hide TxInv, RxInv, RowsInv, SessionInv, Step, HeardFrame, Drops, Retains, AirAfter, SendingAfter, SentAfter,
      LatestAfter, DroppedAfter, CarriedAfter;
    DropsActive(y.link, i);
    StepFate(y.link, i);
    var n := After(y, i);
    assert TxKey(x.link) !in n.staged;
    assert forall j | 0 <= j < MAX_SEGMENTS :: !EndToEnd.Rests(x, n, j);
  }

  /** Beacons and messages share ids and the cache: once a beacon is staged, DATA of its key finds the empty row kept
      for the beacon as long as the entry lives, and is neither stored nor delivered. */
  lemma BeaconMasksData(l: Link, beacon: Frame, later: Link, f: Frame)
    requires Inv(l) && beacon.kind == BEACON && !l.delivery.ready && f.kind == DATA && Canonical(f)
    requires DupLookup(l.dup, l.timer.now, beacon.session, beacon.message).1.None?
    requires f.session == beacon.session && f.message == beacon.message
    requires Shape(later) && later.dup == HandleBeacon(l, beacon).0.dup
      && l.timer.now <= later.timer.now < l.timer.now + Ttl(l.cfg.airtime)
    ensures var (r, status) := HandleData(later, f);
      && status != Delivered && r.rx == later.rx && r.delivery == later.delivery
      && (later.session.open && f.session == later.session.id ==>
        status == Success && r.out == QueueRow(later, Blank).out)
  {
    hide TxInv, RxInv, SessionInv, RowsInv, Canonical, DupLookup, StoreSegment, DupVictim;
    var now, ttl := l.timer.now, l.cfg.airtime;
    var pruned := DupLookup(l.dup, now, f.session, f.message).0;
    LookupPrunes(l.dup, now, f.session, f.message);
    var v := DupVictim(pruned, now, f.session, f.message, 0, None);
    assert Live(later.dup[v], later.timer.now) && SameKey(later.dup[v], f.session, f.message);
    LookupMisses(later.dup, later.timer.now, f.session, f.message);
    DupLookupEntries(later.dup, later.timer.now, f.session, f.message);
  }

  lemma PendingNotOpen(l: Link)
    requires Inv(l) && l.session.open
    ensures !l.session.pending
  {
  }

  // ------------------------------------------------------------ deliveries at one instant

  // All entries live, all expiring at one time.
  predicate Tied(dup: seq<DupEntry>, now: nat, expires: nat) {
    now < expires && forall k | 0 <= k < |dup| :: dup[k].Held? && dup[k].expires == expires
  }

  lemma {:induction false} TieGoesToTheFirst(dup: seq<DupEntry>, now: nat, expires: nat, session: u32, message: u16,
      index: nat)
    requires 0 < |dup| && 0 < index <= |dup| && Tied(dup, now, expires) && Missing(dup, now, session, message)
    ensures DupVictim(dup, now, session, message, index, Some(0)) == 0
    decreases |dup| - index
  {
    if index < |dup| {
      assert Live(dup[index], now) && !SameKey(dup[index], session, message);
      TieGoesToTheFirst(dup, now, expires, session, message, index + 1);
    }
  }

  lemma TiedStore(dup: seq<DupEntry>, now: nat, airtime: nat, session: u32, message: u16, ack: Row)
    requires 0 < |dup| && Tied(dup, now, now + Ttl(airtime)) && Missing(dup, now, session, message)
    ensures DupStore(dup, now, airtime, session, message, ack)
      == dup[0 := Held(session, message, now + Ttl(airtime), ack)]
  {
    assert Live(dup[0], now) && !SameKey(dup[0], session, message);
    TieGoesToTheFirst(dup, now, now + Ttl(airtime), session, message, 1);
  }

  /** Why at-most-once needs the clock to advance: in a full cache whose entries were all stored at this instant, the
      next store at this instant evicts the entry stored last. */
  lemma LatestForgottenAtOneInstant(dup: seq<DupEntry>, now: nat, airtime: nat, a: Frame, b: Frame, ack: Row)
    requires 0 < |dup| && Tied(dup, now, now + Ttl(airtime))
    requires Missing(dup, now, a.session, a.message) && Missing(dup, now, b.session, b.message)
    requires a.session != b.session || a.message != b.message
    ensures var once := DupStore(dup, now, airtime, a.session, a.message, ack);
            Missing(DupStore(once, now, airtime, b.session, b.message, ack), now, a.session, a.message)
  {
    hide DupStore, Ttl;
    TiedStore(dup, now, airtime, a.session, a.message, ack);
    var once := DupStore(dup, now, airtime, a.session, a.message, ack);
    TiedStore(once, now, airtime, b.session, b.message, ack);
  }

  // A beacon of its own key.
  function Ping(m: u16): (f: Frame)
    ensures Canonical(f)
  {
    Frame(BEACON, 0, m, 0, 0, 0, [0])
  }

  // The beacons 0..n-1 arrive and each is collected.
  function Barrage(n: nat): (inputs: seq<Input>)
    requires n <= 10
    ensures ValidInputs(inputs)
  {
    if n == 0 then [] else Barrage(n - 1) + [Receive(Codec.Encode(Ping(n - 1)))] + [Take(MAX_BEACON_BYTES)]
  }

  // The cache after n of them: the first eight fill it, the others overwrite its first slot.
  predicate Pinged(dup: seq<DupEntry>, expires: nat, n: nat)
    requires n <= 10
  {
    |dup| == DUP_CACHE_ENTRIES &&
    forall k | 0 <= k < DUP_CACHE_ENTRIES ::
      dup[k] == if k >= n then Vacant
                else Held(0, if k == 0 && n > DUP_CACHE_ENTRIES then n - 1 else k, expires, Blank)
  }

  lemma {:induction false} NextIsFree(dup: seq<DupEntry>, now: nat, expires: nat, n: nat, index: nat,
      earliest: Option<nat>)
    requires index <= n < DUP_CACHE_ENTRIES && now < expires && Pinged(dup, expires, n)
    requires earliest.Some? ==> earliest.value < |dup| && dup[earliest.value].Held?
    requires earliest.None? ==> index == 0
    ensures DupVictim(dup, now, 0, n, index, earliest) == n
    decreases n - index
  {
    if index < n {
      NextIsFree(dup, now, expires, n, index + 1,
                 if earliest.None? || dup[index].expires < dup[earliest.value].expires then Some(index) else earliest);
    }
  }

  lemma PingStored(dup: seq<DupEntry>, now: nat, airtime: nat, n: nat)
    requires 0 < airtime && n < 10 && Pinged(dup, now + Ttl(airtime), n)
    ensures Pinged(DupStore(dup, now, airtime, 0, n, Blank), now + Ttl(airtime), n + 1)
  {
    hide DupVictim;
    if n < DUP_CACHE_ENTRIES {
      NextIsFree(dup, now, now + Ttl(airtime), n, 0, None);
    } else {
      TiedStore(dup, now, airtime, 0, n, Blank);
    }
  }

  // Looking a missing key up in a cache with nothing expired changes nothing.
  lemma LookupLeaves(dup: seq<DupEntry>, now: nat, expires: nat, n: nat, m: u16)
    requires n <= 10 && now < expires && Pinged(dup, expires, n) && Missing(dup, now, 0, m)
    ensures DupLookup(dup, now, 0, m) == (dup, None)
  {
    hide DupLookup, Missing;
    LookupPrunes(dup, now, 0, m);
    LookupMisses(dup, now, 0, m);
    assert DupLookup(dup, now, 0, m).0 == dup;
  }

  // A link that collected n beacons at one instant.
  predicate Listening(l: Link, airtime: nat, now: nat, n: nat) {
    && n <= 10 && Inv(l) && l.cfg.airtime == airtime && l.timer.now == now && !l.delivery.ready
    && Pinged(l.dup, now + Ttl(airtime), n)
    && (l.heard.Some? ==> 0 < n && l.heard.value.raw == Codec.Encode(Ping(n - 1)))
  }

  lemma PingsDiffer(a: u16, b: u16)
    ensures Codec.Encode(Ping(a)) == Codec.Encode(Ping(b)) <==> a == b
  {
    hide Codec.Encode;
    Codec.EncodingIsInjective(Ping(a), Ping(b));
  }

  // A beacon of a key the cache misses, not the frame heard last, is staged.
  lemma BeaconHeard(l: Link, f: Frame)
    requires Inv(l) && Canonical(f) && f.kind == BEACON && (l.heard.Some? ==> l.heard.value.raw != Codec.Encode(f))
    requires !l.delivery.ready && DupLookup(l.dup, l.timer.now, f.session, f.message) == (l.dup, None)
    ensures HeardFrame(l, Codec.Encode(f)) == Some(f) && Inv(Step(l, Receive(Codec.Encode(f))).0)
    ensures Step(l, Receive(Codec.Encode(f)))
      == (Noted(l, Codec.Encode(f)).(delivery := Delivery(true, true, f.payload),
              dup := DupStore(l.dup, l.timer.now, l.cfg.airtime, f.session, f.message, Blank)), Delivered)
  {
    hide Inv, Shape, Canonical, Step, DupLookup, DupStore, Codec.Decode, Codec.Encode, Hear, HandleBeacon, HandleFrame,
      HandleHello, HandleHelloAck, HandleData, HandleAck;
    InvShape(l);
    var raw := Codec.Encode(f);
    Codec.DecodeEncode(f);
    HearsEncoded(l, f);
    StepIsHear(l, Receive(raw));
    StepInv(l, Receive(raw));
    Handled(Noted(l, raw), f);
    BeaconStaged(Noted(l, raw), f);
  }

  lemma PingHeard(l: Link, now: nat, n: nat, m: u16)
    requires n <= 10 && Listening(l, l.cfg.airtime, now, n) && (m >= n || DUP_CACHE_ENTRIES <= m < n - 1)
    ensures var (r, status) := Step(l, Receive(Codec.Encode(Ping(m))));
      && status == Delivered && HeardFrame(l, Codec.Encode(Ping(m))) == Some(Ping(m)) && Inv(r)
      && r.delivery == Delivery(true, true, [0]) && r.timer == l.timer && r.cfg == l.cfg
      && r.dup == DupStore(l.dup, now, l.cfg.airtime, 0, m, Blank)
      && r.heard.Some? && r.heard.value.raw == Codec.Encode(Ping(m))
  {
    hide TxInv, RxInv, SessionInv, RowsInv, Step, DupLookup, DupStore, HeardFrame, Codec.Encode;
    if n > 0 { PingsDiffer(m, n - 1); }
    LookupLeaves(l.dup, now, now + Ttl(l.cfg.airtime), n, m);
    BeaconHeard(l, Ping(m));
  }

  lemma BeaconStaged(l: Link, f: Frame)
    requires Shape(l) && !l.delivery.ready && DupLookup(l.dup, l.timer.now, f.session, f.message) == (l.dup, None)
    ensures HandleBeacon(l, f) == (l.(delivery := Delivery(true, true, f.payload),
                                      dup := DupStore(l.dup, l.timer.now, l.cfg.airtime, f.session, f.message, Blank)),
                                        Delivered)
  {
    hide Shape, DupLookup, DupStore;
  }

  // One more beacon, collected.
  lemma PingCollected(l: Link, now: nat, n: nat)
    requires n < 10 && Listening(l, l.cfg.airtime, now, n)
    ensures var r := Step(Step(l, Receive(Codec.Encode(Ping(n)))).0, Take(MAX_BEACON_BYTES)).0;
            r.cfg == l.cfg && Listening(r, l.cfg.airtime, now, n + 1)
  {
    hide TxInv, RxInv, SessionInv, RowsInv, Step, DupStore, Codec.Encode, Pinged, HeardFrame;
    PingHeard(l, now, n, n);
    PingStored(l.dup, now, l.cfg.airtime, n);
    Taken(Step(l, Receive(Codec.Encode(Ping(n)))).0);
  }

  lemma BarrageRuns(l: Link, n: nat)
    requires Shape(l) && n < 10
    ensures Run(l, Barrage(n + 1)) == Step(Step(Run(l, Barrage(n)), Receive(Codec.Encode(Ping(n)))).0,
      Take(MAX_BEACON_BYTES)).0
  {
    hide Shape, Step, Run, Codec.Encode;
    var again := Receive(Codec.Encode(Ping(n)));
    Runs.RunSplits(l, Barrage(n), [again]);
    Runs.RunOne(Run(l, Barrage(n)), again);
    Runs.RunSplits(l, Barrage(n) + [again], [Take(MAX_BEACON_BYTES)]);
    Runs.RunOne(Run(l, Barrage(n) + [again]), Take(MAX_BEACON_BYTES));
  }

  lemma {:induction false} BarrageHeard(l: Link, now: nat, n: nat)
    requires n <= 10 && Shape(l) && Listening(l, l.cfg.airtime, now, 0)
    ensures Listening(Run(l, Barrage(n)), l.cfg.airtime, now, n) && Run(l, Barrage(n)).cfg == l.cfg
    decreases n
  {
    hide Inv, Shape, Step, Run, Listening, Codec.Encode;
    if n == 0 {
      Runs.RunNothing(l);
    } else {
      BarrageHeard(l, now, n - 1);
      BarrageRuns(l, n - 1);
      PingCollected(Run(l, Barrage(n - 1)), now, n - 1);
    }
  }

  lemma Taken(l: Link)
    requires Inv(l) && l.delivery == Delivery(true, true, [0])
    ensures var r := Step(l, Take(MAX_BEACON_BYTES)).0; Inv(r) && r == l.(delivery := r.delivery) && !r.delivery.ready
  {
    hide TxInv, RxInv, SessionInv, RowsInv, Shape, Send, Beacon, Cancel, AdvanceTime, Hear, TakeRow, Reset;
    TakeInv(l, MAX_BEACON_BYTES);
  }

  /** A run that delivers one key twice at one instant, with a single other frame heard between the two. */
  lemma DeliveredTwiceAtOnce(cfg: Config, window: nat) returns (before: seq<Input>, i: Input, between: seq<Input>)
    requires ValidConfig(cfg, window)
    ensures ValidInputs(before) && ValidInputs(between) && ValidInput(i)
    ensures |between| == 3 && between[0].Take? && between[1].Receive? && between[2].Take?
    ensures var (l, r) := (Run(Initial(cfg, window), before), Run(Initial(cfg, window), before + [i] + between));
            DeliveredKey(l, i).Some? && DeliveredKey(r, i) == DeliveredKey(l, i) && r.timer.now == l.timer.now
  {
    hide Inv, Step, DupStore, Codec.Encode, Pinged, Run, Initial, Barrage, HeardFrame;
    var l := Initial(cfg, window);
    InitialListens(cfg, window);
    before, i := Barrage(8), Receive(Codec.Encode(Ping(8)));
    between := [Take(MAX_BEACON_BYTES)] + [Receive(Codec.Encode(Ping(9)))] + [Take(MAX_BEACON_BYTES)];
    BarrageSplits();
    BarrageHeard(l, 0, 8);
    BarrageHeard(l, 0, 10);
    PingHeard(Run(l, before), 0, 8, 8);
    PingHeard(Run(l, Barrage(10)), 0, 10, 8);
  }

  lemma BarrageSplits()
    ensures Barrage(10) == Barrage(8) + [Receive(Codec.Encode(Ping(8)))]
                           + ([Take(MAX_BEACON_BYTES)] + [Receive(Codec.Encode(Ping(9)))] + [Take(MAX_BEACON_BYTES)])
  {
    hide Codec.Encode;
    var n: nat := 8;
    assert Barrage(n + 1) == Barrage(n) + [Receive(Codec.Encode(Ping(n)))] + [Take(MAX_BEACON_BYTES)];
    assert Barrage(n + 2) == Barrage(n + 1) + [Receive(Codec.Encode(Ping(n + 1)))] + [Take(MAX_BEACON_BYTES)];
  }

  lemma InitialListens(cfg: Config, window: nat)
    requires ValidConfig(cfg, window)
    ensures Listening(Initial(cfg, window), cfg.airtime, 0, 0) && Initial(cfg, window).cfg == cfg
  {
    hide TxInv, RxInv, SessionInv, RowsInv, Shape, Recompute, Codec.Encode;
    InitialInv(cfg, window);
    Timers.RecomputeClock(Timer(0, None, 0, 0, 0), cfg.airtime, window);
  }
}
