/**
  The window: queue_window bounds the frames one call queues. Nothing bounds the frames outstanding but the segments of
  the message that are not acknowledged, and runs reach that bound.
 */
module Window {
  import opened Bytes
  import opened Wire
  import opened LinkSpec
  import opened Reachable
  import opened Invariant
  import opened Effects
  import opened DupCache
  import Acks
  import Codec
  import Exhaustion
  import Lossless
  import Receiving
  import Runs
  import Sessions

  // ------------------------------------------------------------ what one call queues

  // Segments on air and not acknowledged.
  function Outstanding(tx: Sender): nat
    requires SenderShape(tx)
  {
    Count(tx.inflight, MAX_SEGMENTS)
  }

  // Segments from `from` on that are neither acknowledged nor on air.
  function Eligible(tx: Sender, from: nat): nat
    requires SenderShape(tx)
    decreases MAX_SEGMENTS - from
  {
    if from >= tx.total then 0 else (if tx.acked[from] || tx.inflight[from] then 0 else 1) + Eligible(tx, from + 1)
  }

  function Least(a: nat, b: nat, c: nat): nat {
    if a <= b && a <= c then a else if b <= c then b else c
  }

  lemma {:induction false} EligibleAfter(tx: Sender, s: nat, from: nat)
    requires SenderShape(tx) && s < from && s < MAX_SEGMENTS
    ensures Eligible(tx.(inflight := tx.inflight[s := true]), from) == Eligible(tx, from)
    decreases MAX_SEGMENTS - from
  {
    if from < tx.total { EligibleAfter(tx, s, from + 1); }
  }

  /** queue_window queues the least of the window, the eligible segments and the room in the ring, and each frame it
      queues is one more segment outstanding. */
  lemma {:induction false} QueuesLeast(l: Link, sequence: nat, queued: nat)
    requires Shape(l) && TxInv(l.tx) && queued <= l.window
    ensures var r := QueueFrom(l, sequence, queued);
      && r.1 == queued + Least(l.window - queued, Eligible(l.tx, sequence), OUT_QUEUE_FRAMES - |l.out|)
      && Outstanding(r.0.tx) == Outstanding(l.tx) + (r.1 - queued)
    decreases MAX_SEGMENTS - sequence
  {
    hide QueueFrom, DataFrame, TxInv, Count;
    QueueFromTurn(l, sequence, queued);
    if Skips(l, sequence, queued) {
      QueuesLeast(l, sequence + 1, queued);
    } else if Queues(l, sequence, queued) {
      MarkedInv(l, sequence);
      QueuesLeast(Marked(l, sequence), sequence + 1, queued + 1);
      EligibleAfter(l.tx, sequence, sequence + 1);
      CountSet(l.tx.inflight, sequence, MAX_SEGMENTS);
    }
  }

  // The rows of the eligible segments from `from` on, lowest first.
  function Offered(l: Link, from: nat): seq<Row>
    requires Shape(l)
    decreases MAX_SEGMENTS - from
  {
    hide DataFrame;
    if from >= l.tx.total then []
    else (if l.tx.acked[from] || l.tx.inflight[from] then [] else [Sent(DataFrame(l, from))]) + Offered(l, from + 1)
  }

  lemma {:induction false} OfferedAfter(l: Link, s: nat, from: nat)
    requires Shape(l) && s < from && s < l.tx.total && |l.out| < OUT_QUEUE_FRAMES
    ensures Offered(Marked(l, s), from) == Offered(l, from)
    decreases MAX_SEGMENTS - from
  {
    if from < l.tx.total { OfferedAfter(l, s, from + 1); }
  }

  lemma OfferedTurn(l: Link, sequence: nat, queued: nat)
    requires Shape(l)
    ensures Skips(l, sequence, queued) ==> Offered(l, sequence) == Offered(l, sequence + 1)
    ensures Queues(l, sequence, queued) ==>
      Offered(l, sequence) == [Sent(DataFrame(l, sequence))] + Offered(Marked(l, sequence), sequence + 1)
  {
    hide DataFrame;
    assert [] + Offered(l, sequence + 1) == Offered(l, sequence + 1);
    if Queues(l, sequence, queued) { OfferedAfter(l, sequence, sequence + 1); }
  }

  lemma Behind(out: seq<Row>, row: Row, rest: seq<Row>, n: nat)
    requires n <= |rest|
    ensures out + [row] + rest[..n] == out + ([row] + rest)[..n + 1]
  {
  }

  /** What it queues are the DATA frames of the first eligible segments, in order. */
  lemma {:induction false} QueuesFirst(l: Link, sequence: nat, queued: nat) returns (n: nat)
    requires Shape(l) && TxInv(l.tx) && queued <= l.window
    ensures queued + n == QueueFrom(l, sequence, queued).1 && n <= |Offered(l, sequence)|
    ensures QueueFrom(l, sequence, queued).0.out == l.out + Offered(l, sequence)[..n]
    decreases MAX_SEGMENTS - sequence
  {
    hide QueueFrom, DataFrame, TxInv, Offered;
    QueueFromTurn(l, sequence, queued);
    OfferedTurn(l, sequence, queued);
    n := 0;
    if Skips(l, sequence, queued) {
      n := QueuesFirst(l, sequence + 1, queued);
    } else if Queues(l, sequence, queued) {
      MarkedInv(l, sequence);
      n := QueuesFirst(Marked(l, sequence), sequence + 1, queued + 1);
      Behind(l.out, Sent(DataFrame(l, sequence)), Offered(Marked(l, sequence), sequence + 1), n);
      n := n + 1;
    }
  }

  // What start_or_resume_tx queues of a transfer.
  function Supply(tx: Sender, window: nat, out: seq<Row>): nat
    requires SenderShape(tx) && |out| <= OUT_QUEUE_FRAMES
  {
    Least(window, Eligible(tx, tx.base), OUT_QUEUE_FRAMES - |out|)
  }

  // Of a transfer that was not started nothing is on air.
  predicate Unsent(tx: Sender)
    requires SenderShape(tx)
  {
    tx.started || Outstanding(tx) == 0
  }

  lemma ResumeOutstanding(l: Link, retransmission: bool)
    requires Shape(l) && TxInv(l.tx)
    ensures var r := StartOrResume(l, retransmission);
      && Outstanding(r.tx) == Outstanding(l.tx) + Supply(l.tx, l.window, l.out) && r.window == l.window
      && (Unsent(l.tx) ==> Unsent(r.tx)) && r.tx.inflight == QueueFrom(l, l.tx.base, 0).0.tx.inflight
  {
    hide QueueFrom, Recompute, Eligible, Count, TxInv;
    QueueFromFrame(l, l.tx.base, 0);
    QueuesLeast(l, l.tx.base, 0);
  }

  /** After a partial acknowledgement the segments outstanding are those it leaves on air and the least of the window,
      the segments that may be queued and the room in the ring. */
  lemma OutstandingAfterAck(l: Link, f: Frame)
    requires Inv(l) && Matches(l, f)
    ensures var r, marked := HandleAck(l, f).0, MarkAcked(l.tx, f);
      && Outstanding(r.tx) == Outstanding(marked) + Supply(marked, l.window, l.out) && r.window == l.window
      && (Outstanding(r.tx) <= l.window <==> Outstanding(marked) + Supply(marked, l.window, l.out) <= l.window)
      && (Unsent(l.tx) ==> Unsent(r.tx))
  {
    hide TxInv, RxInv, RowsInv, SessionInv, QueueFrom, AckedAfter, FirstClear, Recompute, Eligible, StartOrResume;
    MarkAckedInv(l.tx, f);
    MarkedOutstanding(l.tx.inflight, MarkAcked(l.tx, f).inflight, MAX_SEGMENTS);
    ResumeOutstanding(l.(tx := MarkAcked(l.tx, f), timer := Recompute(l.timer, l.cfg.airtime, l.window)), false);
  }

  lemma {:induction false} MarkedOutstanding(before: seq<bool>, after: seq<bool>, n: nat)
    requires n <= |before| == |after| && forall i | 0 <= i < |after| :: after[i] ==> before[i]
    ensures Count(after, n) <= Count(before, n)
    decreases n
  {
    if n > 0 { MarkedOutstanding(before, after, n - 1); }
  }

  lemma {:induction false} CountApart(a: seq<bool>, b: seq<bool>, n: nat)
    requires n <= |a| == |b| && forall i | 0 <= i < |a| :: !(a[i] && b[i])
    ensures Count(a, n) + Count(b, n) <= n
    decreases n
  {
    if n > 0 { CountApart(a, b, n - 1); }
  }

  /** The bound that holds in every run: the segments outstanding and those acknowledged are together at most the
      segments of the message. */
  lemma OutstandingBound(cfg: Config, window: nat, inputs: seq<Input>)
    requires ValidConfig(cfg, window) && ValidInputs(inputs)
    ensures var tx := Run(Initial(cfg, window), inputs).tx; Outstanding(tx) + Count(tx.acked, MAX_SEGMENTS) <= tx.total
  {
    hide RxInv, RowsInv, SessionInv, Run, Initial, Fits, Count;
    RunInv(cfg, window, inputs);
    var tx := Run(Initial(cfg, window), inputs).tx;
    CountApart(tx.acked, tx.inflight, tx.total);
    CountPrefix(tx.acked, tx.total, MAX_SEGMENTS);
    CountPrefix(tx.inflight, tx.total, MAX_SEGMENTS);
  }

  // ------------------------------------------------------------ what an event makes of the bound

  // The frames that may leave more outstanding than the window: an acknowledgement whose resumption adds too much to
  // what it leaves on air, a HELLO that replaces the session with a window below what is on air, and a HELLO_ACK for a
  // transfer that was sending before its session was open.
  predicate Overfills(l: Link, f: Frame)
    requires Shape(l)
  {
    || (Matches(l, f)
        && l.window < Outstanding(MarkAcked(l.tx, f)) + Supply(MarkAcked(l.tx, f), l.window, l.out))
    || (Exhaustion.Opens(l, f) && !l.session.pending && Negotiated(l, f) < Outstanding(l.tx))
    || (Exhaustion.Settles(l, f) && Negotiated(l, f) < Outstanding(l.tx) + Supply(l.tx, Negotiated(l, f), l.out))
  }

  // The number outstanding is within the window.
  predicate Kept(l: Link)
    requires Shape(l)
  {
    Outstanding(l.tx) <= l.window
  }

  lemma NoneOutstanding(tx: Sender)
    requires TxInv(tx) && tx.total == 0
    ensures Outstanding(tx) == 0
  {
    CountNone(tx.inflight, MAX_SEGMENTS);
  }

  lemma ClearedOutstanding(tx: Sender, status: Result)
    requires SenderShape(tx)
    ensures Outstanding(ClearTx(tx).(status := status)) == 0
  {
    CountNone(NoneSet(), MAX_SEGMENTS);
  }

  lemma SendKeeps(l: Link, message: seq<byte>, entropy: Option<Entropy>)
    requires Inv(l) && Unsent(l.tx) && Kept(l)
    requires entropy.Some? ==> |entropy.value.challenge| == CHALLENGE_BYTES
    ensures var r := Send(l, message, entropy).0; Unsent(r.tx) && Kept(r)
  {
    hide TxInv, RxInv, RowsInv, SessionInv, Load, Recompute, StartOrResume, HelloFrame, Canonical, Outstanding,
      Eligible;
    if |message| <= l.cfg.maxMessage && !l.tx.active {
      var loaded := Load(l, message);
      LoadInv(l, message);
      LoadedOutstanding(l, message);
      ClearedOutstanding(loaded.tx, ModemFailure);
      ClearedOutstanding(loaded.tx, Protocol);
      ClearedOutstanding(loaded.tx, Busy);
      ResumeOutstanding(loaded, false);
    }
  }

  lemma LoadedOutstanding(l: Link, message: seq<byte>)
    requires Shape(l) && |message| <= MAX_MESSAGE_BYTES
    ensures var r := Load(l, message); Outstanding(r.tx) == 0 && r == l.(tx := r.tx)
  {
    hide Chunks, SegmentCount;
    CountNone(NoneSet(), MAX_SEGMENTS);
  }

  lemma TickKeeps(l: Link, time: nat)
    requires Inv(l) && Unsent(l.tx) && Kept(l)
    ensures var r := AdvanceTime(l, time); Unsent(r.tx) && Kept(r)
  {
    hide TxInv, RxInv, RowsInv, SessionInv, StartOrResume, HelloFrame, CancelFrame, Canonical, Outstanding, Eligible,
      NoneSet, NoSegments, BackOff;
    ClearedOutstanding(l.tx, Timeout);
    var fired := l.(timer := l.timer.(now := if time > l.timer.now then time else l.timer.now, deadline := None));
    if l.tx.active && l.tx.retries < l.cfg.maxRetries {
      RetimedInv(l, fired.timer);
      ExpiredInv(fired);
      ExpiredOutstanding(fired);
      ResumeOutstanding(Expired(fired), true);
    }
  }

  lemma ExpiredOutstanding(l: Link)
    requires Shape(l)
    ensures Outstanding(Expired(l).tx) == 0
  {
    CountNone(NoneSet(), MAX_SEGMENTS);
  }

  lemma HelloKeeps(l: Link, f: Frame)
    requires Inv(l) && Unsent(l.tx) && Kept(l) && f.kind == HELLO && Canonical(f)
    ensures var r := HandleHello(l, f).0; Unsent(r.tx) && (Kept(r) <==> !Overfills(l, f))
  {
    hide TxInv, RxInv, RowsInv, Canonical, AdoptSession, Outstanding, Supply, CapabilityWindow, NoneSet, NoSegments,
      NoDuplicates, CapabilityProfile;
    if CapabilityProfile(f.value) == l.cfg.profile {
      if l.session.pending {
        ClearedOutstanding(l.tx, l.tx.status);
        YieldInv(l);
        AdoptKeeps(Yield(l), f);
      } else if !(l.session.open && f.session == l.session.id) {
        var emptied := l.(rx := ClearRx(l.rx), dup := NoDuplicates());
        AdoptKeeps(l, f);
        AdoptKeeps(emptied, f);
      }
    }
  }

  lemma AdoptKeeps(l: Link, f: Frame)
    requires Shape(l) && TxInv(l.tx) && Unsent(l.tx) && f.kind == HELLO && Canonical(f)
    ensures var r := AdoptSession(l, f).0;
            Unsent(r.tx) && r.window == Negotiated(l, f) && (Kept(r) <==> Outstanding(l.tx) <= Negotiated(l, f))
  {
    hide TxInv, Canonical, StartOrResume, Outstanding, Eligible, Recompute;
    HelloFramesCanonical(Named(l, f), f.message);
    var m := Named(l, f);
    var begun := QueueRow(m, Sent(HelloAckFrame(m, f.message)))
      .(session := m.session.(helloAck := Some(HelloAckFrame(m, f.message)), open := true),
        timer := Recompute(l.timer, l.cfg.airtime, m.window));
    ResumeOutstanding(begun, false);
  }

  lemma FrameKeeps(l: Link, f: Frame)
    requires Inv(l) && Unsent(l.tx) && Kept(l) && Canonical(f)
    ensures var r := HandleFrame(l, f).0; Unsent(r.tx) && (Kept(r) <==> !Overfills(l, f))
  {
    hide TxInv, RxInv, RowsInv, SessionInv, Canonical, HandleHello, HandleData, StartOrResume, Outstanding, Eligible,
      Recompute, CapabilityWindow, NoneSet, NoSegments, CapabilityProfile, DupLookup, DupStore, MarkAcked;
    ClearedOutstanding(l.tx, Success);
    ClearedOutstanding(l.tx, Cancelled);
    if f.kind == HELLO {
      HelloKeeps(l, f);
    } else if f.kind == HELLO_ACK {
      var window := Negotiated(l, f);
      ResumeOutstanding(l.(session := l.session.(pending := false, open := true), window := window,
                         timer := Recompute(l.timer, l.cfg.airtime, window).(deadline := None)), false);
      if !l.tx.active { IdleOutstanding(l.tx, window, l.out); }
    } else if f.kind == DATA {
      HandleDataEffect(l, f);
      Sessions.HandleDataSession(l, f);
    } else if Matches(l, f) {
      OutstandingAfterAck(l, f);
    }
  }

  lemma IdleOutstanding(tx: Sender, window: nat, out: seq<Row>)
    requires TxInv(tx) && !tx.active && |out| <= OUT_QUEUE_FRAMES
    ensures Outstanding(tx) == 0 && Supply(tx, window, out) == 0
  {
    NoneOutstanding(tx);
  }

  /** From a state within the window, what an event leaves is within the window unless the event is a frame of
      Overfills, and then it is not. */
  lemma StepKeeps(l: Link, i: Input)
    requires Inv(l) && ValidInput(i) && Unsent(l.tx) && Kept(l)
    ensures var r := Step(l, i).0;
      && Unsent(r.tx)
      && (Kept(r) <==> !(i.Receive? && HeardFrame(l, i.raw).Some? && Overfills(l, HeardFrame(l, i.raw).value)))
  {
    hide TxInv, RxInv, RowsInv, SessionInv, Outstanding, Send, AdvanceTime, HandleFrame, Canonical, Codec.Decode,
      CancelFrame, NoneSet, NoSegments, Recompute;
    match i
    case Submit(message, entropy) => SendKeeps(l, message, entropy);
    case Tick(time) => TickKeeps(l, time);
    case Receive(raw) =>
      var noted := l.(heard := Some(Heard(raw, l.timer.now)));
      if HeardFrame(l, raw).Some? {
        NotedInv(l, noted.heard);
        FrameKeeps(noted, HeardFrame(l, raw).value);
      }
    case Announce(_) =>
    case Abort(reason) => ClearedOutstanding(l.tx, Cancelled);
    case Transmit =>
    case Take(_) =>
    case Restart => ClearedOutstanding(l.tx, Success);
  }

  // No event of the run is a frame of Overfills.
  predicate Contained(l: Link, inputs: seq<Input>)
    requires Shape(l) && ValidInputs(inputs)
    decreases |inputs|
  {
    inputs == [] ||
    var n := |inputs| - 1;
    var before, i := Run(l, inputs[..n]), inputs[n];
    Contained(l, inputs[..n])
    && !(i.Receive? && HeardFrame(before, i.raw).Some? && Overfills(before, HeardFrame(before, i.raw).value))
  }

  /** So in every run without such a frame the segments outstanding never exceed the window. */
  lemma {:induction false} WindowInEveryRun(cfg: Config, window: nat, inputs: seq<Input>)
    requires ValidConfig(cfg, window) && ValidInputs(inputs) && Contained(Initial(cfg, window), inputs)
    ensures var r := Run(Initial(cfg, window), inputs); Unsent(r.tx) && Kept(r)
    decreases |inputs|
  {
    hide Initial, Step, Outstanding, Overfills, HeardFrame;
    if inputs == [] {
      InitialInv(cfg, window);
      InitialOutstanding(cfg, window);
    } else {
      var n := |inputs| - 1;
      WindowInEveryRun(cfg, window, inputs[..n]);
      RunInv(cfg, window, inputs[..n]);
      assert ValidInput(inputs[n]);
      StepKeeps(Run(Initial(cfg, window), inputs[..n]), inputs[n]);
    }
  }

  lemma InitialOutstanding(cfg: Config, window: nat)
    requires ValidConfig(cfg, window)
    ensures Outstanding(Initial(cfg, window).tx) == 0
  {
    hide Recompute;
    CountNone(NoneSet(), MAX_SEGMENTS);
  }

  // ------------------------------------------------------------ a run that reaches the bound

  lemma {:induction false} SkipsMarked(l: Link, from: nat, end: nat)
    requires Shape(l) && TxInv(l.tx) && from <= end <= l.tx.total
    requires forall i | from <= i < end :: l.tx.acked[i] || l.tx.inflight[i]
    ensures QueueFrom(l, from, 0) == QueueFrom(l, end, 0)
    decreases end - from
  {
    hide QueueFrom, DataFrame, TxInv;
    QueueFromTurn(l, from, 0);
    if from < end { SkipsMarked(l, from + 1, end); }
  }

  // An acknowledgement of nothing.
  function Nothing(l: Link): (f: Frame)
    ensures Canonical(f)
  {
    Frame(ACK, l.session.id, l.tx.message, 0, 0, 0, [])
  }

  lemma NamesNothing(f: Frame, i: nat)
    requires f.sequence == 0 && f.value == 0
    ensures !Names(f, i)
  {
    if 0 < i <= 16 { Acks.NoBit(i - 1); }
  }

  lemma SameNothing(l: Link, m: Link)
    requires m.session == l.session && m.tx == l.tx
    ensures Nothing(m) == Nothing(l) && Nothing(l).kind == ACK
  {
  }

  lemma MarksNothing(tx: Sender, f: Frame)
    requires TxInv(tx) && tx.active && tx.base == 0 && f.sequence == 0 && f.value == 0
    ensures MarkAcked(tx, f) == tx.(retries := 0)
  {
    hide Names, Fits;
    forall i: nat
      ensures !Names(f, i)
    {
      NamesNothing(f, i);
    }
    assert AckedAfter(tx, f) == tx.acked && InflightAfter(tx, f) == tx.inflight;
  }

  // Of a transfer nobody acknowledged, the first k segments are on air.
  predicate Flooded(l: Link, k: nat)
    requires Shape(l)
  {
    && l.tx.active && l.tx.base == 0 && k <= l.tx.total
    && (forall i | 0 <= i < MAX_SEGMENTS :: !l.tx.acked[i])
    && Lossless.OnAir(l.tx, 0, k) && Inv(l)
  }

  // Each acknowledgement of nothing puts a further window on air.
  lemma Floods(l: Link, k: nat)
    requires Shape(l) && l.out == [] && Flooded(l, k)
    ensures var r := HandleAck(l, Nothing(l)).0;
      && Flooded(r, Lossless.Least(k + l.window, l.tx.total)) && r.tx.total == l.tx.total
        && r.tx.message == l.tx.message
      && r.session == l.session && r.window == l.window
  {
    hide TxInv, RxInv, RowsInv, SessionInv, QueueFrom, MarkAcked, Recompute, Outstanding, Supply, Unsent;
    var f := Nothing(l);
    HandleAckInv(l, f);
    MarkAckedInv(l.tx, f);
    MarksNothing(l.tx, f);
    var marked := l.(tx := MarkAcked(l.tx, f), timer := Recompute(l.timer, l.cfg.airtime, l.window));
    SkipsMarked(marked, 0, k);
    Lossless.QueueExactly(marked, 0, k, 0, Lossless.Least(k + l.window, l.tx.total));
    ResumeOutstanding(marked, false);
    ResumeFrame(marked, false);
  }

  // The ring drained, the acknowledgement heard, and then noise that makes the repeat guard forget it.
  function Round(l: Link): (inputs: seq<Input>)
    requires Shape(l)
    ensures ValidInputs(inputs)
  {
    Runs.Drain(|l.out|) + [Receive(Codec.Encode(Nothing(l)))] + [Receive([])]
  }

  // The last thing heard was noise.
  predicate Quieted(l: Link) {
    l.heard.Some? && l.heard.value.raw == []
  }

  lemma HearsNoise(l: Link)
    requires Inv(l)
    ensures var r := Step(l, Receive([])).0; Inv(r) && r == l.(heard := r.heard) && Quieted(r)
  {
    hide TxInv, RxInv, SessionInv, RowsInv, Shape, HandleFrame;
    NotedInv(l, Some(Heard([], l.timer.now)));
    Receiving.StepIsHear(l, Receive([]));
  }

  lemma Rounds(l: Link, k: nat)
    requires Shape(l) && Quieted(l) && Flooded(l, k)
    ensures var r := Run(l, Round(l));
      && Flooded(r, Lossless.Least(k + l.window, l.tx.total)) && r.tx.total == l.tx.total && r.window == l.window
        && Quieted(r)
  {
    hide Inv, Shape, Run, Step, HandleAck, Codec.Decode, Codec.Encode, Canonical, Flooded, Nothing;
    var f := Nothing(l);
    FloodedInv(l, k);
    Runs.DrainTakes(l, |l.out|);
    var drained := l.(out := []);
    assert l.out[|l.out|..] == [];
    Runs.RunSplits(l, Runs.Drain(|l.out|) + [Receive(Codec.Encode(f))], [Receive([])]);
    Runs.RunSplits(l, Runs.Drain(|l.out|), [Receive(Codec.Encode(f))]);
    Runs.RunOne(drained, Receive(Codec.Encode(f)));
    HearsEncoded(drained, f);
    Receiving.StepIsHear(drained, Receive(Codec.Encode(f)));
    var noted := Noted(drained, Codec.Encode(f));
    NotedInv(drained, noted.heard);
    FloodedKept(l, noted, k);
    SameNothing(l, noted);
    Handled(noted, f);
    Floods(noted, k);
    var flooded := HandleAck(noted, f).0;
    FloodedInv(flooded, Lossless.Least(k + l.window, l.tx.total));
    Runs.RunOne(flooded, Receive([]));
    HearsNoise(flooded);
    FloodedKept(flooded, Step(flooded, Receive([])).0, Lossless.Least(k + l.window, l.tx.total));
  }

  lemma FloodedInv(l: Link, k: nat)
    requires Shape(l) && Flooded(l, k)
    ensures Inv(l)
  {
    hide Inv, Lossless.OnAir;
  }

  lemma FloodedKept(l: Link, r: Link, k: nat)
    requires Shape(l) && Inv(r) && r.tx == l.tx && Flooded(l, k)
    ensures Flooded(r, k)
  {
    hide TxInv, RxInv, SessionInv, RowsInv, Lossless.OnAir;
  }

  lemma {:induction false} KeepsFlooding(l: Link, k: nat) returns (inputs: seq<Input>)
    requires Shape(l) && Quieted(l) && Flooded(l, k)
    ensures ValidInputs(inputs)
    ensures var r := Run(l, inputs); Flooded(r, r.tx.total) && r.tx.total == l.tx.total
    decreases MAX_SEGMENTS - k
  {
    hide Inv, Run, Step, Round, Quieted, Lossless.OnAir;
    inputs := [];
    if k < l.tx.total {
      Rounds(l, k);
      var next := Run(l, Round(l));
      var rest := KeepsFlooding(next, Lossless.Least(k + l.window, l.tx.total));
      inputs := Round(l) + rest;
      Runs.RunSplits(l, Round(l), rest);
    } else {
      Runs.RunNothing(l);
    }
  }

  // A responder that opened a session and was given a message, then heard noise.
  function Prelude(hello: Frame, message: seq<byte>): (inputs: seq<Input>)
    requires Canonical(hello)
    ensures ValidInputs(inputs)
  {
    [Receive(Codec.Encode(hello))] + [Transmit] + [Submit(message, None)] + [Receive([])]
  }

  lemma Started(cfg: Config, window: nat, hello: Frame, message: seq<byte>)
    requires ValidConfig(cfg, window) && cfg.role.Responder? && |message| <= cfg.maxMessage
    requires hello.kind == HELLO && Canonical(hello) && CapabilityProfile(hello.value) == cfg.profile
    ensures var r := Run(Initial(cfg, window), Prelude(hello, message));
      && Quieted(r) && Flooded(r, Lossless.Least(r.window, r.tx.total)) && SegmentCount(|message|) == Some(r.tx.total)
  {
    hide TxInv, RxInv, SessionInv, RowsInv, Run, Step, HandleHello, Canonical, Codec.Encode, CapabilityProfile,
      Negotiated, SegmentCount, Send, HelloAckFrame, Quieted;
    var l0 := Initial(cfg, window);
    InitialInv(cfg, window);
    Runs.InitialIdle(cfg, window);
    Prefixes(l0, hello, message);
    HearsEncoded(l0, hello);
    Receiving.StepIsHear(l0, Receive(Codec.Encode(hello)));
    NotedInv(l0, Noted(l0, Codec.Encode(hello)).heard);
    Runs.Accepts(Noted(l0, Codec.Encode(hello)), hello);
    Handled(Noted(l0, Codec.Encode(hello)), hello);
    var l1 := Step(l0, Receive(Codec.Encode(hello))).0;
    Lossless.TransmitStep(l1);
    var l2 := Step(l1, Transmit).0;
    assert l2.out == [];
    Lossless.SendStarts(l2, message);
    Runs.SubmitIsSend(l2, message, None);
    var l3 := Step(l2, Submit(message, None)).0;
    HearsNoise(l3);
    FloodedKept(l3, Step(l3, Receive([])).0, Lossless.Least(l3.window, l3.tx.total));
  }

  // The states of the prelude.
  lemma Prefixes(l: Link, hello: Frame, message: seq<byte>)
    requires Shape(l) && Canonical(hello)
    ensures var l1 := Step(l, Receive(Codec.Encode(hello))).0;
            var l3 := Step(Step(l1, Transmit).0, Submit(message, None)).0;
            Run(l, Prelude(hello, message)) == Step(l3, Receive([])).0
  {
    hide Shape, Step, Run, Codec.Encode, Canonical;
    var (a, b, c, d) := (Receive(Codec.Encode(hello)), Transmit, Submit(message, None), Receive([]));
    Runs.RunOne(l, a);
    Runs.RunSplits(l, [a], [b]);
    Runs.RunOne(Run(l, [a]), b);
    Runs.RunSplits(l, [a] + [b], [c]);
    Runs.RunOne(Run(l, [a] + [b]), c);
    Runs.RunSplits(l, [a] + [b] + [c], [d]);
    Runs.RunOne(Run(l, [a] + [b] + [c]), d);
  }

  lemma FloodedCount(l: Link)
    requires Shape(l) && Flooded(l, l.tx.total)
    ensures Outstanding(l.tx) == l.tx.total && l.tx.active
  {
    hide Inv;
    CountFull(l.tx.inflight, l.tx.total);
    CountPrefix(l.tx.inflight, l.tx.total, MAX_SEGMENTS);
  }

  /** The bound is reached, whatever the window: for any message a responder accepts there is a run, of repeated
      acknowledgements that name nothing, after which every segment of the message is outstanding at once. */
  lemma EverySegmentOutstanding(cfg: Config, window: nat, hello: Frame, message: seq<byte>) returns (inputs: seq<Input>)
    requires ValidConfig(cfg, window) && cfg.role.Responder? && |message| <= cfg.maxMessage
    requires hello.kind == HELLO && Canonical(hello) && CapabilityProfile(hello.value) == cfg.profile
    ensures ValidInputs(inputs)
    ensures var r := Run(Initial(cfg, window), inputs);
            r.tx.active && SegmentCount(|message|) == Some(r.tx.total) && Outstanding(r.tx) == r.tx.total
  {
    hide Run, Initial, Prelude, Quieted, Flooded, Canonical, CapabilityProfile, SegmentCount, Outstanding;
    Started(cfg, window, hello, message);
    var l := Run(Initial(cfg, window), Prelude(hello, message));
    var rest := KeepsFlooding(l, Lossless.Least(l.window, l.tx.total));
    inputs := Prelude(hello, message) + rest;
    Runs.RunSplits(Initial(cfg, window), Prelude(hello, message), rest);
    FloodedCount(Run(l, rest));
  }
}
