/**
  At most once, with its real bound: the eight-entry expiring cache forgets a delivered key only after 64 frame
  airtimes, after eight later deliveries, or when it is wiped.
 */
module DupCache {
  import opened Bytes
  import opened Wire
  import opened LinkSpec
  import opened Reachable
  import opened Invariant
  import opened Effects
  import opened Timers
  import Ledger
  import Codec

  /** One dup_store: the key, and when it happened. */
  datatype Store = Store(session: u32, message: u16, time: nat)

  function Ttl(airtime: nat): nat {
    airtime * DUP_CACHE_TTL_FRAMES
  }

  predicate Holds(e: DupEntry, s: Store, ttl: nat) {
    e.Held? && e.session == s.session && e.message == s.message && e.expires == s.time + ttl
  }

  predicate SameKey(e: DupEntry, session: u32, message: u16) {
    e.Held? && e.session == session && e.message == message
  }

  predicate Missing(dup: seq<DupEntry>, now: nat, session: u32, message: u16) {
    forall k | 0 <= k < |dup| :: Live(dup[k], now) ==> !SameKey(dup[k], session, message)
  }

  // ------------------------------------------------------------ lookup and eviction

  /** dup_lookup misses exactly when no unexpired entry has the key. */
  lemma {:induction false} LookupMisses(dup: seq<DupEntry>, now: nat, session: u32, message: u16)
    ensures DupLookup(dup, now, session, message).1.None? <==> Missing(dup, now, session, message)
    decreases |dup|
  {
    if dup != [] {
      assert forall k | 0 < k < |dup| :: dup[k] == dup[1..][k - 1];
      LookupMisses(dup[1..], now, session, message);
      if Live(dup[0], now) && dup[0].session == session && dup[0].message == message {
      } else if !Missing(dup[1..], now, session, message) {
        var k :| 0 <= k < |dup[1..]| && Live(dup[1..][k], now) && SameKey(dup[1..][k], session, message);
        assert dup[k + 1] == dup[1..][k];
      }
    }
  }

  // The invariant of the victim scan.
  predicate Scanned(dup: seq<DupEntry>, now: nat, index: nat, earliest: Option<nat>) {
    && index <= |dup| && (earliest.None? <==> index == 0)
    && (forall k | 0 <= k < index :: Live(dup[k], now))
    && (earliest.Some? ==> earliest.value < index && forall k | 0 <= k < index ::
      dup[earliest.value].expires <= dup[k].expires)
  }

  /** With the key absent, dup_store takes an unused or expired slot if there is one and otherwise evicts the entry that
      expires first. */
  lemma {:induction false} VictimIsOldest(dup: seq<DupEntry>, now: nat, session: u32, message: u16, index: nat,
      earliest: Option<nat>)
    requires 0 < |dup| && Missing(dup, now, session, message) && Scanned(dup, now, index, earliest)
    ensures var v := DupVictim(dup, now, session, message, index, earliest);
      if exists k :: 0 <= k < |dup| && !Live(dup[k], now) then !Live(dup[v], now)
      else forall k | 0 <= k < |dup| :: dup[v].expires <= dup[k].expires
    decreases |dup| - index
  {
    if index < |dup| && Live(dup[index], now) {
      assert !SameKey(dup[index], session, message);
      VictimIsOldest(dup, now, session, message, index + 1,
                     if earliest.None? || dup[index].expires < dup[earliest.value].expires then Some(index)
                       else earliest);
    }
  }

  // ------------------------------------------------------------ the cache and the history of stores

  predicate Spaced(h: seq<Store>) {
    forall i, j | 0 <= i < j < |h| :: h[i].time < h[j].time
  }

  ghost predicate InCache(dup: seq<DupEntry>, s: Store, ttl: nat) {
    exists k :: 0 <= k < |dup| && Holds(dup[k], s, ttl)
  }

  ghost predicate Known(e: DupEntry, h: seq<Store>, ttl: nat) {
    exists i :: 0 <= i < |h| && Holds(e, h[i], ttl)
  }

  // What the cache remembers of the stores since it was last wiped: the last eight as long as they have not expired.
  ghost predicate Tracks(dup: seq<DupEntry>, now: nat, ttl: nat, h: seq<Store>) {
    && (forall k | 0 <= k < |dup| && dup[k].Held? :: Known(dup[k], h, ttl))
    && (forall i | 0 <= i < |h| :: |h| <= i + DUP_CACHE_ENTRIES && now < h[i].time + ttl ==> InCache(dup, h[i], ttl))
    && (forall j, k | 0 <= j < k < |dup| && dup[j].Held? && dup[k].Held? :: dup[j].expires != dup[k].expires)
    && (forall j, k | 0 <= j < k < |dup| && Live(dup[j], now) && Live(dup[k], now) ::
      !SameKey(dup[j], dup[k].session, dup[k].message))
    && (forall i | 0 <= i < |h| :: h[i].time <= now)
  }

  // What dup_lookup leaves: only expired entries go.
  predicate Pruned(dup: seq<DupEntry>, r: seq<DupEntry>, now: nat) {
    |r| == |dup| && forall k | 0 <= k < |dup| :: r[k] == dup[k] || (r[k] == Vacant && !Live(dup[k], now))
  }

  lemma TracksPruned(dup: seq<DupEntry>, r: seq<DupEntry>, now: nat, ttl: nat, h: seq<Store>)
    requires Tracks(dup, now, ttl, h) && Pruned(dup, r, now)
    ensures Tracks(r, now, ttl, h)
  {
    hide Known, SameKey;
    forall i | 0 <= i < |h| && |h| <= i + DUP_CACHE_ENTRIES && now < h[i].time + ttl
      ensures InCache(r, h[i], ttl)
    {
      var k :| 0 <= k < |dup| && Holds(dup[k], h[i], ttl);
      assert r[k] == dup[k];
    }
  }

  // The index of the store an entry comes from.
  ghost function Source(e: DupEntry, h: seq<Store>, ttl: nat): (i: nat)
    requires Known(e, h, ttl)
    ensures i < |h| && Holds(e, h[i], ttl)
  {
    var i :| 0 <= i < |h| && Holds(e, h[i], ttl);
    i
  }

  // A full cache of eight unexpired entries cannot be made of fewer than eight stores.
  lemma OldestIsNotRecent(dup: seq<DupEntry>, now: nat, ttl: nat, h: seq<Store>, i: nat, v: nat)
    requires Tracks(dup, now, ttl, h) && Spaced(h) && |dup| == DUP_CACHE_ENTRIES
    requires forall k | 0 <= k < |dup| :: Live(dup[k], now)
    requires v < |dup| && Live(dup[v], now) && forall k | 0 <= k < |dup| :: dup[v].expires <= dup[k].expires
    requires i < |h| && |h| < i + DUP_CACHE_ENTRIES
    ensures dup[v].expires != h[i].time + ttl
  {
    hide Known;
    if dup[v].expires == h[i].time + ttl {
      var at := seq(DUP_CACHE_ENTRIES, k requires 0 <= k < DUP_CACHE_ENTRIES => Source(dup[k], h, ttl) - i);
      forall k | 0 <= k < DUP_CACHE_ENTRIES
        ensures 0 <= at[k] < |h| - i
      {
        assert h[Source(dup[k], h, ttl)].time >= h[i].time;
      }
      var places: seq<nat> := seq(DUP_CACHE_ENTRIES, k requires 0 <= k < DUP_CACHE_ENTRIES => at[k] as nat);
      Ledger.DistinctBound(places, |h| - i);
    }
  }

  // What one dup_store of an absent key does.
  predicate Replaces(dup: seq<DupEntry>, v: nat, r: seq<DupEntry>, now: nat, s: Store, ttl: nat) {
    && v < |dup| && |r| == |dup| == DUP_CACHE_ENTRIES && Holds(r[v], s, ttl) && s.time == now
    && (forall k | 0 <= k < |dup| && k != v :: r[k] == dup[k])
    && Missing(dup, now, s.session, s.message)
    && (!Live(dup[v], now) || forall k | 0 <= k < |dup| :: Live(dup[k], now) && dup[v].expires <= dup[k].expires)
  }

  lemma StoreReplaces(dup: seq<DupEntry>, now: nat, airtime: nat, session: u32, message: u16, ack: Row)
    requires |dup| == DUP_CACHE_ENTRIES && Missing(dup, now, session, message)
    ensures Replaces(dup, DupVictim(dup, now, session, message, 0, None),
      DupStore(dup, now, airtime, session, message, ack), now,
                     Store(session, message, now), Ttl(airtime))
  {
    hide Missing, DupVictim;
    VictimIsOldest(dup, now, session, message, 0, None);
  }

  // The last eight stores are still there: the victim is none of the seven before the new one.
  lemma StoredRecent(dup: seq<DupEntry>, v: nat, r: seq<DupEntry>, now: nat, s: Store, ttl: nat, h: seq<Store>, i: nat)
    requires Replaces(dup, v, r, now, s, ttl) && Tracks(dup, now, ttl, h) && Spaced(h)
    requires i < |h| && |h| < i + DUP_CACHE_ENTRIES && now < h[i].time + ttl
    ensures InCache(r, h[i], ttl)
  {
    hide Missing, Spaced, Known, SameKey;
    var k :| 0 <= k < |dup| && Holds(dup[k], h[i], ttl);
    if k == v {
      OldestIsNotRecent(dup, now, ttl, h, i, v);
    } else {
      assert Holds(r[k], h[i], ttl);
    }
  }

  lemma StoredKnown(dup: seq<DupEntry>, v: nat, r: seq<DupEntry>, now: nat, s: Store, ttl: nat, h: seq<Store>, k: nat)
    requires Replaces(dup, v, r, now, s, ttl) && Tracks(dup, now, ttl, h) && Spaced(h + [s])
    requires k < |r| && r[k].Held?
    ensures Known(r[k], h + [s], ttl)
    ensures k != v ==> r[k].expires < now + ttl
  {
    hide Missing, InCache, SameKey;
    var all := h + [s];
    if k == v {
      assert Holds(r[k], all[|h|], ttl);
    } else {
      var i :| 0 <= i < |h| && Holds(dup[k], h[i], ttl);
      assert Holds(r[k], all[i], ttl) && all[i].time < all[|h|].time;
    }
  }

  // Storing a key that is absent.
  lemma TracksStored(dup: seq<DupEntry>, v: nat, r: seq<DupEntry>, now: nat, s: Store, ttl: nat, h: seq<Store>)
    requires Replaces(dup, v, r, now, s, ttl) && Tracks(dup, now, ttl, h) && Spaced(h + [s])
    ensures Tracks(r, now, ttl, h + [s])
  {
    hide Known;
    var all := h + [s];
    assert Spaced(h) by {
      assert forall i | 0 <= i < |h| :: all[i] == h[i];
    }
    forall i | 0 <= i < |all| && |all| <= i + DUP_CACHE_ENTRIES && now < all[i].time + ttl
      ensures InCache(r, all[i], ttl)
    {
      if i < |h| { StoredRecent(dup, v, r, now, s, ttl, h, i); } else { }
    }
    forall k | 0 <= k < |r| && r[k].Held?
      ensures Known(r[k], all, ttl) && (k != v ==> r[k].expires < now + ttl)
    {
      StoredKnown(dup, v, r, now, s, ttl, h, k);
    }
  }

  // ------------------------------------------------------------ what events do to the cache

  // Looked up at the current time, nothing stored.
  predicate Kept(l: Link, r: Link) {
    r.cfg == l.cfg && r.timer.now >= l.timer.now && Pruned(l.dup, r.dup, r.timer.now)
  }

  // Looked up without a hit and stored: a delivery.
  ghost predicate Filed(l: Link, r: Link, session: u32, message: u16) {
    && r.cfg == l.cfg && r.timer.now == l.timer.now
    && exists pruned: seq<DupEntry>, ack ::
      Pruned(l.dup, pruned, l.timer.now) && Missing(pruned, l.timer.now, session, message)
         && 0 < |pruned| && r.dup == DupStore(pruned, l.timer.now, l.cfg.airtime, session, message, ack)
  }

  lemma LookupPrunes(dup: seq<DupEntry>, now: nat, session: u32, message: u16)
    ensures var r := DupLookup(dup, now, session, message);
            Pruned(dup, r.0, now)
              && (r.1.None? ==> Missing(dup, now, session, message) && Missing(r.0, now, session, message))
  {
    hide DupLookup;
    DupLookupEntries(dup, now, session, message);
    LookupMisses(dup, now, session, message);
  }

  lemma FinishRxDup(l: Link)
    requires Shape(l)
    ensures var r := FinishRx(l);
      && r.0.cfg == l.cfg && r.0.timer == l.timer
      && r.0.dup == if r.1 == Delivered
        then DupStore(l.dup, l.timer.now, l.cfg.airtime, l.rx.session, l.rx.message, Sent(DeliveredAck(l.rx)))
                    else l.dup
  {
    hide Accepted, Canonical, DeliveredAck, ClearRx, DupVictim;
  }

  lemma PlaceSegmentDup(l: Link, f: Frame)
    requires Shape(l)
    ensures var r := PlaceSegment(l, f);
      && r.0.cfg == l.cfg && r.0.timer == l.timer
      && if r.1 == Delivered
         then exists ack :: r.0.dup == DupStore(l.dup, l.timer.now, l.cfg.airtime, l.rx.session, l.rx.message, ack)
         else r.0.dup == l.dup
  {
    hide FinishRx, Canonical, PartialAck, AckDue, DupStore;
    if f.sequence < l.rx.total && !l.rx.received[f.sequence] {
      FinishRxDup(l.(rx := Stored(l.rx, f)));
    }
  }

  lemma StoreSegmentDup(l: Link, f: Frame)
    requires Shape(l) && f.kind == DATA && Canonical(f)
    requires l.rx.active ==> l.rx.session == f.session && l.rx.message == f.message
    ensures var r := StoreSegment(l, f);
      && r.0.cfg == l.cfg && r.0.timer == l.timer
      && if r.1 == Delivered
         then exists ack :: r.0.dup == DupStore(l.dup, l.timer.now, l.cfg.airtime, f.session, f.message, ack)
         else r.0.dup == l.dup
  {
    hide PlaceSegment, Canonical, DupStore;
    PlaceSegmentDup(if l.rx.active then l else l.(rx := Begun(l.rx, f)), f);
  }

  lemma HandleDataDup(l: Link, f: Frame)
    requires Inv(l) && f.kind == DATA && Canonical(f)
    ensures var r := HandleData(l, f);
            if r.1 == Delivered then Filed(l, r.0, f.session, f.message) else Kept(l, r.0)
  {
    hide StoreSegment, Canonical, DupStore, DupLookup, Missing, TxInv, RxInv, RowsInv, NoneSet, NoSegments;
    if l.session.open && f.session == l.session.id {
      LookupPrunes(l.dup, l.timer.now, f.session, f.message);
      var (dup, cached) := DupLookup(l.dup, l.timer.now, f.session, f.message);
      if cached.None? {
        var m := if l.rx.active && f.message != l.rx.message then l.(dup := dup, rx := ClearRx(l.rx))
          else l.(dup := dup);
        StoreSegmentDup(m, f);
        var r := HandleData(l, f);
        if r.1 == Delivered {
          var ack :| r.0.dup == DupStore(m.dup, m.timer.now, m.cfg.airtime, f.session, f.message, ack);
        }
      }
    }
  }

  lemma HandleBeaconDup(l: Link, f: Frame)
    requires Shape(l)
    ensures var r := HandleBeacon(l, f);
            if r.1 == Delivered then Filed(l, r.0, f.session, f.message) else Kept(l, r.0)
  {
    hide DupStore, DupLookup, Missing;
    LookupPrunes(l.dup, l.timer.now, f.session, f.message);
    var r := HandleBeacon(l, f);
  }

  // A HELLO that replaces the open session of a responder wipes the cache.
  predicate Replacing(l: Link, f: Frame) {
    && f.kind == HELLO && CapabilityProfile(f.value) == l.cfg.profile
    && l.cfg.role.Responder? && l.session.open && f.session != l.session.id
  }

  lemma AnsweredDup(l: Link, reply: Frame)
    requires Shape(l)
    ensures var r := Answered(l, reply);
            r.dup == l.dup && r.cfg == l.cfg && r.timer.now == l.timer.now && r.session.id == l.session.id
  {
    hide StartOrResume;
    var begun := QueueRow(l, Sent(reply))
      .(session := l.session.(helloAck := Some(reply), open := true),
        timer := Recompute(l.timer, l.cfg.airtime, l.window));
    ResumeClock(begun, false);
  }

  lemma ResumeClock(l: Link, retransmission: bool)
    requires Shape(l)
    ensures var r := StartOrResume(l, retransmission);
            r.timer.now == l.timer.now && r == l.(out := r.out, timer := r.timer, tx := r.tx)
  {
    hide QueueFrom;
    QueueFromFrame(l, l.tx.base, 0);
  }

  lemma HandleHelloDup(l: Link, f: Frame)
    requires Inv(l) && f.kind == HELLO && Canonical(f)
    ensures var r := HandleHello(l, f);
      && r.1 != Delivered
      && if Replacing(l, f) then r.0.cfg == l.cfg && r.0.timer.now == l.timer.now && r.0.dup == NoDuplicates()
        else Kept(l, r.0)
  {
    hide HelloAckFrame, Canonical, Answered, NoDuplicates, Negotiated, TxInv, RxInv, RowsInv, NoneSet, NoSegments;
    AnsweredDup(Named(l, f), HelloAckFrame(Named(l, f), f.message));
    AnsweredDup(Named(Yield(l), f), HelloAckFrame(Named(Yield(l), f), f.message));
    var emptied := l.(rx := ClearRx(l.rx), dup := NoDuplicates());
    AnsweredDup(Named(emptied, f), HelloAckFrame(Named(emptied, f), f.message));
    HelloFramesCanonical(Named(emptied, f), f.message);
  }

  lemma HandleAckDup(l: Link, f: Frame)
    requires Shape(l)
    ensures HandleAck(l, f).1 != Delivered && Kept(l, HandleAck(l, f).0)
  {
    hide StartOrResume, MarkAcked, ClearTx;
    if l.tx.active {
      ResumeClock(l.(tx := MarkAcked(l.tx, f), timer := Recompute(l.timer, l.cfg.airtime, l.window)), false);
    }
  }

  lemma HandleHelloAckDup(l: Link, f: Frame)
    requires Shape(l)
    ensures HandleHelloAck(l, f).1 != Delivered && Kept(l, HandleHelloAck(l, f).0)
  {
    hide StartOrResume;
    var window := Negotiated(l, f);
    ResumeClock(l.(session := l.session.(pending := false, open := true), window := window,
                   timer := Recompute(l.timer, l.cfg.airtime, window).(deadline := None)), false);
  }

  // The frame an event delivers to handle_frame, unless it is a repeat or does not decode.
  function HeardFrame(l: Link, raw: Codec.Raw): (heard: Option<Frame>)
    ensures heard.Some? ==> Canonical(heard.value)
  {
    if l.heard.Some? && l.heard.value.raw == raw && l.timer.now - l.heard.value.at < 2 * l.cfg.airtime then None
    else if Codec.Decode(raw).Bad? then None
    else Some(Codec.Decode(raw).frame)
  }

  predicate Wipes(l: Link, i: Input) {
    i.Restart? || (i.Receive? && HeardFrame(l, i.raw).Some? && Replacing(l, HeardFrame(l, i.raw).value))
  }

  // The key an event delivers under.
  function DeliveredKey(l: Link, i: Input): Option<(u32, u16)>
    requires Shape(l) && ValidInput(i)
  {
    if i.Receive? && HeardFrame(l, i.raw).Some? && Step(l, i).1 == Delivered then
      Some((HeardFrame(l, i.raw).value.session, HeardFrame(l, i.raw).value.message))
    else None
  }

  lemma HandleFrameDup(l: Link, f: Frame)
    requires Inv(l) && Canonical(f)
    ensures var r := HandleFrame(l, f);
      if Replacing(l, f) then r.1 != Delivered && r.0.cfg == l.cfg && r.0.timer.now == l.timer.now
        && r.0.dup == NoDuplicates()
      else if r.1 == Delivered then Filed(l, r.0, f.session, f.message)
      else Kept(l, r.0)
  {
    hide TxInv, RxInv, RowsInv, SessionInv, Canonical, HandleHello, HandleHelloAck, HandleData, HandleAck, HandleBeacon,
      Filed, NoDuplicates, ClearTx, ClearRx;
    if f.kind == HELLO {
      HandleHelloDup(l, f);
    } else if f.kind == HELLO_ACK {
      HandleHelloAckDup(l, f);
    } else if f.kind == DATA {
      HandleDataDup(l, f);
    } else if f.kind == ACK {
      HandleAckDup(l, f);
    } else if f.kind != CANCEL {
      HandleBeaconDup(l, f);
    }
  }

  lemma HearDup(l: Link, raw: Codec.Raw)
    requires Inv(l)
    ensures var r := Hear(l, raw);
      if Wipes(l, Receive(raw)) then r.0.cfg == l.cfg && r.0.timer.now == l.timer.now && r.0.dup == NoDuplicates()
      else if HeardFrame(l, raw).Some? && r.1 == Delivered
      then Filed(l, r.0, HeardFrame(l, raw).value.session, HeardFrame(l, raw).value.message)
      else Kept(l, r.0)
  {
    hide TxInv, RxInv, RowsInv, HandleFrame, Canonical, Codec.Decode, NoDuplicates, DupStore, Missing;
    var noted := l.(heard := Some(Heard(raw, l.timer.now)));
    if HeardFrame(l, raw).Some? {
      var f := HeardFrame(l, raw).value;
      NotedInv(l, noted.heard);
      HandleFrameDup(noted, f);
    }
  }

  lemma AdvanceTimeDup(l: Link, time: nat)
    requires Shape(l)
    ensures Kept(l, AdvanceTime(l, time))
  {
    hide StartOrResume, HelloFrame, CancelFrame, Canonical, NoneSet, NoSegments;
    var fired := l.(timer := l.timer.(now := if time > l.timer.now then time else l.timer.now, deadline := None));
    ResumeClock(Expired(fired), true);
  }

  lemma SendDup(l: Link, message: seq<byte>, entropy: Option<Entropy>)
    requires Shape(l)
    requires entropy.Some? ==> |entropy.value.challenge| == CHALLENGE_BYTES
    ensures Kept(l, Send(l, message, entropy).0)
  {
    hide Load, StartOrResume, OpenSession;
    if |message| <= l.cfg.maxMessage && !l.tx.active {
      LoadKeeps(l, message);
      ResumeClock(Load(l, message), false);
      OpenSessionDup(Load(l, message), entropy);
    }
  }

  lemma OpenSessionDup(l: Link, entropy: Option<Entropy>)
    requires Shape(l)
    requires entropy.Some? ==> |entropy.value.challenge| == CHALLENGE_BYTES
    ensures var r := OpenSession(l, entropy).0; r.dup == l.dup && r.cfg == l.cfg && r.timer.now == l.timer.now
  {
    hide HelloFrame, Canonical, Recompute;
    RecomputeClock(l.timer, l.cfg.airtime, 1);
  }

  /** What an event does to the cache: wiped, one key filed after a miss, or only expired entries dropped. */
  lemma StepDup(l: Link, i: Input)
    requires Inv(l) && ValidInput(i)
    ensures var r := Step(l, i).0;
      if Wipes(l, i) then r.cfg == l.cfg && r.timer.now == l.timer.now && r.dup == NoDuplicates()
      else if DeliveredKey(l, i).Some? then Filed(l, r, DeliveredKey(l, i).value.0, DeliveredKey(l, i).value.1)
      else Kept(l, r)
  {
    hide TxInv, RxInv, SessionInv, RowsInv, Send, AdvanceTime, Hear, NoDuplicates, Filed, Replacing, HeardFrame,
      Recompute;
    match i
    case Submit(message, entropy) => SendDup(l, message, entropy);
    case Announce(payload) =>
    case Abort(reason) =>
    case Tick(time) => AdvanceTimeDup(l, time);
    case Receive(raw) => HearDup(l, raw);
    case Transmit =>
    case Take(capacity) =>
    case Restart => RecomputeClock(l.timer.(deadline := None), l.cfg.airtime, l.window);
  }

  // ------------------------------------------------------------ every run

  /** The deliveries of a run since the cache was last wiped. */
  function History(l: Link, inputs: seq<Input>): seq<Store>
    requires Shape(l) && ValidInputs(inputs)
    decreases |inputs|
  {
    if inputs == [] then []
    else
      var n := |inputs| - 1;
      Extended(History(l, inputs[..n]), Run(l, inputs[..n]), inputs[n])
  }

  function Extended(h: seq<Store>, l: Link, i: Input): seq<Store>
    requires Shape(l) && ValidInput(i)
  {
    if Wipes(l, i) then []
    else if DeliveredKey(l, i).Some?
      then h + [Store(DeliveredKey(l, i).value.0, DeliveredKey(l, i).value.1, l.timer.now)]
    else h
  }

  lemma TracksFiled(l: Link, r: Link, session: u32, message: u16, h: seq<Store>)
    requires Shape(l) && Tracks(l.dup, l.timer.now, Ttl(l.cfg.airtime), h) && Filed(l, r, session, message)
    requires Spaced(h + [Store(session, message, l.timer.now)])
    ensures Tracks(r.dup, r.timer.now, Ttl(l.cfg.airtime), h + [Store(session, message, l.timer.now)])
  {
    hide Tracks, Missing, DupStore, Spaced, Ttl;
    var pruned: seq<DupEntry>, ack :| Pruned(l.dup, pruned, l.timer.now)
      && Missing(pruned, l.timer.now, session, message)
         && 0 < |pruned| && r.dup == DupStore(pruned, l.timer.now, l.cfg.airtime, session, message, ack);
    TracksPruned(l.dup, pruned, l.timer.now, Ttl(l.cfg.airtime), h);
    StoreReplaces(pruned, l.timer.now, l.cfg.airtime, session, message, ack);
    TracksStored(pruned, DupVictim(pruned, l.timer.now, session, message, 0, None), r.dup, l.timer.now,
                 Store(session, message, l.timer.now), Ttl(l.cfg.airtime), h);
  }

  lemma StepTracks(l: Link, i: Input, h: seq<Store>)
    requires Inv(l) && ValidInput(i) && Tracks(l.dup, l.timer.now, Ttl(l.cfg.airtime), h)
    requires Spaced(Extended(h, l, i))
    ensures var r := Step(l, i).0; r.cfg == l.cfg && Tracks(r.dup, r.timer.now, Ttl(r.cfg.airtime), Extended(h, l, i))
  {
    hide TxInv, RxInv, SessionInv, RowsInv, Step, Wipes, DeliveredKey, Spaced, Pruned, Ttl;
    StepDup(l, i);
    var r := Step(l, i).0;
    if Wipes(l, i) {
    } else if DeliveredKey(l, i).Some? {
      TracksFiled(l, r, DeliveredKey(l, i).value.0, DeliveredKey(l, i).value.1, h);
    } else {
      TracksPruned(l.dup, r.dup, r.timer.now, Ttl(l.cfg.airtime), h);
    }
  }

  lemma SpacedPrefix(h: seq<Store>, l: Link, i: Input)
    requires Shape(l) && ValidInput(i) && Spaced(Extended(h, l, i)) && !Wipes(l, i)
    ensures Spaced(h)
  {
    hide Wipes, DeliveredKey, Shape;
    assert forall k | 0 <= k < |h| :: Extended(h, l, i)[k] == h[k];
  }

  lemma {:induction false} RunTracks(cfg: Config, window: nat, inputs: seq<Input>)
    requires ValidConfig(cfg, window) && ValidInputs(inputs)
    requires Spaced(History(Initial(cfg, window), inputs))
    ensures var l := Run(Initial(cfg, window), inputs);
            Inv(l) && l.cfg == cfg
              && Tracks(l.dup, l.timer.now, Ttl(cfg.airtime), History(Initial(cfg, window), inputs))
    decreases |inputs|
  {
    hide Inv, Step, Wipes, DeliveredKey, Spaced, TimerInv;
    RunInv(cfg, window, inputs);
    BackoffInEveryRun(cfg, window, inputs);
    if inputs == [] {
    } else {
      var l, n := Initial(cfg, window), |inputs| - 1;
      var before, h, i := Run(l, inputs[..n]), History(l, inputs[..n]), inputs[n];
      assert ValidInput(i);
      RunInv(cfg, window, inputs[..n]);
      if Wipes(before, i) {
        StepDup(before, i);
      } else {
        SpacedPrefix(h, before, i);
        RunTracks(cfg, window, inputs[..n]);
        StepTracks(before, i, h);
      }
    }
  }

  // A delivery is no hit, so the cache has lost every earlier store of its key.
  lemma DeliveryMisses(l: Link, r: Link, session: u32, message: u16, s: Store, ttl: nat)
    requires Filed(l, r, session, message) && s.session == session && s.message == message
    requires l.timer.now < s.time + ttl
    ensures !InCache(l.dup, s, ttl)
  {
    hide DupStore;
    var pruned: seq<DupEntry>, ack :| Pruned(l.dup, pruned, l.timer.now)
      && Missing(pruned, l.timer.now, session, message)
         && 0 < |pruned| && r.dup == DupStore(pruned, l.timer.now, l.cfg.airtime, session, message, ack);
    forall k | 0 <= k < |l.dup|
      ensures !Holds(l.dup[k], s, ttl)
    {
      assert pruned[k] == l.dup[k] || !Live(l.dup[k], l.timer.now);
    }
  }

  /** Two deliveries of one (session, message) key in a run are separated by at least 64 frame airtimes, by at least
      eight other deliveries, or by a wipe of the cache (which starts the history afresh), as long as the clock advances
      between deliveries. */
  lemma AtMostOnce(cfg: Config, window: nat, inputs: seq<Input>, i: Input, j: nat)
    requires ValidConfig(cfg, window) && ValidInputs(inputs) && ValidInput(i)
    requires var h := History(Initial(cfg, window), inputs); Spaced(h) && j < |h|
    requires var l := Run(Initial(cfg, window), inputs); !Wipes(l, i)
    requires var l, s := Run(Initial(cfg, window), inputs), History(Initial(cfg, window), inputs)[j];
             DeliveredKey(l, i) == Some((s.session, s.message))
    ensures var l, h := Run(Initial(cfg, window), inputs), History(Initial(cfg, window), inputs);
            l.timer.now >= h[j].time + 64 * cfg.airtime || |h| >= j + 1 + 8
  {
    hide Inv, Step, Wipes, DeliveredKey, Spaced, Initial, Run, History, InCache, Filed;
    var l, h := Run(Initial(cfg, window), inputs), History(Initial(cfg, window), inputs);
    RunTracks(cfg, window, inputs);
    StepDup(l, i);
    var ttl := Ttl(cfg.airtime);
    if l.timer.now < h[j].time + ttl && |h| <= j + DUP_CACHE_ENTRIES {
      DeliveryMisses(l, Step(l, i).0, h[j].session, h[j].message, h[j], ttl);
    }
  }

  // ------------------------------------------------------------ unexpired keys are distinct

  predicate KeysDistinct(dup: seq<DupEntry>, now: nat) {
    forall j, k | 0 <= j < k < |dup| && Live(dup[j], now) && Live(dup[k], now) ::
      !SameKey(dup[j], dup[k].session, dup[k].message)
  }

  lemma StepKeysDistinct(l: Link, i: Input)
    requires Inv(l) && ValidInput(i) && KeysDistinct(l.dup, l.timer.now)
    ensures KeysDistinct(Step(l, i).0.dup, Step(l, i).0.timer.now)
  {
    hide TxInv, RxInv, SessionInv, RowsInv, Step, Wipes, DeliveredKey, DupStore;
    StepDup(l, i);
    var r := Step(l, i).0;
    if !Wipes(l, i) && DeliveredKey(l, i).Some? {
      var (session, message) := DeliveredKey(l, i).value;
      var pruned: seq<DupEntry>, ack :| Pruned(l.dup, pruned, l.timer.now)
        && Missing(pruned, l.timer.now, session, message)
         && 0 < |pruned| && r.dup == DupStore(pruned, l.timer.now, l.cfg.airtime, session, message, ack);
      StoreReplaces(pruned, l.timer.now, l.cfg.airtime, session, message, ack);
    }
  }

  /** In every run the unexpired entries of the duplicate cache have pairwise distinct keys. */
  lemma {:induction false} KeysDistinctInEveryRun(cfg: Config, window: nat, inputs: seq<Input>)
    requires ValidConfig(cfg, window) && ValidInputs(inputs)
    ensures var l := Run(Initial(cfg, window), inputs); KeysDistinct(l.dup, l.timer.now)
    decreases |inputs|
  {
    hide Inv, Step, SameKey;
    if inputs != [] {
      var n := |inputs| - 1;
      KeysDistinctInEveryRun(cfg, window, inputs[..n]);
      RunInv(cfg, window, inputs[..n]);
      StepKeysDistinct(Run(Initial(cfg, window), inputs[..n]), inputs[n]);
    }
  }
}
