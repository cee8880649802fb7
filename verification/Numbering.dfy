/**
  Message ids: they advance with every transfer that ends in KAL_OK and with nothing else, so the transfers of a run are
  told apart by their ids. When no transfer fails no key carries two messages.
 */
module Numbering {
  import opened Bytes
  import opened Wire
  import opened LinkSpec
  import opened Reachable
  import opened Invariant
  import opened Effects
  import opened Channel
  import opened DupCache
  import opened EndToEnd
  import Codec
  import Exhaustion
  import Timers

  // The id of the transfer after k completed ones: initiators use the even ids, responders the odd ones.
  function Number(role: Role, k: nat): u16 {
    ((if role.Initiator? then 0 else 1) + 2 * k) % 0x1_0000
  }

  /** Fewer than 32768 transfers apart, ids differ. */
  lemma NumbersDiffer(role: Role, j: nat, k: nat)
    requires j < k < j + 0x8000
    ensures Number(role, j) != Number(role, k)
  {
  }

  // ------------------------------------------------------------ one event

  lemma OpenKeepsNumber(l: Link, entropy: Option<Entropy>)
    requires Shape(l) && (entropy.Some? ==> |entropy.value.challenge| == CHALLENGE_BYTES)
    ensures OpenSession(l, entropy).0.session.nextMessage == l.session.nextMessage
  {
    hide HelloFrame, Canonical, Recompute;
  }

  lemma SendKeepsNumber(l: Link, message: seq<byte>, entropy: Option<Entropy>)
    requires Shape(l) && (entropy.Some? ==> |entropy.value.challenge| == CHALLENGE_BYTES)
    ensures Send(l, message, entropy).0.session.nextMessage == l.session.nextMessage
  {
    hide Load, StartOrResume, OpenSession, NoneSet, NoSegments;
    if |message| <= l.cfg.maxMessage && !l.tx.active {
      Timers.LoadKeeps(l, message);
      ResumeFrame(Load(l, message), false);
      OpenKeepsNumber(Load(l, message), entropy);
    }
  }

  lemma TickKeepsNumber(l: Link, time: nat)
    requires Shape(l)
    ensures AdvanceTime(l, time).session.nextMessage == l.session.nextMessage
  {
    hide StartOrResume, HelloFrame, CancelFrame, Canonical, NoneSet, NoSegments, BackOff;
    ResumeFrame(Expired(l.(timer := l.timer.(now := if time > l.timer.now then time else l.timer.now,
                                             deadline := None))), true);
  }

  lemma AdoptKeepsNumber(l: Link, f: Frame)
    requires Shape(l) && f.kind == HELLO && Canonical(f)
    ensures AdoptSession(l, f).0.session.nextMessage == l.session.nextMessage
  {
    hide Canonical, StartOrResume, Recompute, HelloAckFrame;
    var named := Named(l, f);
    var reply := HelloAckFrame(named, f.message);
    ResumeFrame(QueueRow(named, Sent(reply))
      .(session := named.session.(helloAck := Some(reply), open := true),
        timer := Recompute(named.timer, named.cfg.airtime, named.window)), false);
  }

  // A receipt of the whole transfer under way.
  predicate Receipts(l: Link, f: Frame) {
    && f.kind == ACK && Flagged(f) && l.tx.active && f.session == l.session.id && f.message == l.tx.message
    && f.sequence == l.tx.total
  }

  lemma FrameNumber(l: Link, f: Frame)
    requires Shape(l) && Canonical(f)
    ensures var r := HandleFrame(l, f).0;
      && r.session.nextMessage == (if Receipts(l, f) then (l.session.nextMessage + 2) % 0x1_0000
                                   else l.session.nextMessage)
      && (Receipts(l, f) ==> !r.tx.active && r.tx.status == Success)
  {
    hide Canonical, HandleData, AdoptSession, DupLookup, DupStore, StartOrResume, MarkAcked, Recompute, NoneSet,
      NoSegments, CapabilityProfile, CapabilityWindow;
    if f.kind == HELLO {
      AdoptKeepsNumber(l, f);
      AdoptKeepsNumber(Yield(l), f);
      AdoptKeepsNumber(l.(rx := ClearRx(l.rx), dup := NoDuplicates()), f);
    } else if f.kind == HELLO_ACK {
      var window := Negotiated(l, f);
      ResumeFrame(l.(session := l.session.(pending := false, open := true), window := window,
                     timer := Recompute(l.timer, l.cfg.airtime, window).(deadline := None)), false);
    } else if f.kind == DATA {
      Exhaustion.DataSession(l, f);
    } else if f.kind == ACK && l.tx.active {
      ResumeFrame(l.(tx := MarkAcked(l.tx, f), timer := Recompute(l.timer, l.cfg.airtime, l.window)), false);
    }
  }

  lemma HearNumber(l: Link, raw: Codec.Raw)
    requires Inv(l)
    ensures var (r, heard) := (Hear(l, raw).0, HeardFrame(l, raw));
      && r.session.nextMessage
        == (if heard.Some? && Receipts(l, heard.value) then (l.session.nextMessage + 2) % 0x1_0000
                                   else l.session.nextMessage)
      && (heard.Some? && Receipts(l, heard.value) ==> !r.tx.active && r.tx.status == Success)
  {
    hide TxInv, RxInv, RowsInv, SessionInv, HandleFrame, Canonical, Codec.Decode;
    if HeardFrame(l, raw).Some? {
      FrameNumber(l.(heard := Some(Heard(raw, l.timer.now))), HeardFrame(l, raw).value);
    }
  }

  /** The id advances by two, within 16 bits, at the event that ends a transfer in KAL_OK; a reset takes it back to the
      first of the role; nothing else moves it. */
  lemma StepNumber(l: Link, i: Input)
    requires Inv(l) && ValidInput(i)
    ensures var r := Step(l, i).0;
      r.session.nextMessage == if i.Restart? then Number(l.cfg.role, 0)
                               else if Succeeds(l, i) then (l.session.nextMessage + 2) % 0x1_0000
                               else l.session.nextMessage
  {
    hide TxInv, RxInv, RowsInv, SessionInv, Send, AdvanceTime, Hear, HeardFrame, Canonical, CancelFrame, NoneSet,
      NoSegments, Recompute;
    match i
    case Submit(message, entropy) => SendKeepsNumber(l, message, entropy);
    case Tick(time) => TickKeepsNumber(l, time);
    case Receive(raw) =>
      HearNumber(l, raw);
      if Succeeds(l, i) { SuccessHeard(l, raw); }
    case Announce(_) =>
    case Abort(_) =>
    case Transmit =>
    case Take(_) =>
    case Restart =>
  }

  // ------------------------------------------------------------ runs of one link

  // The transfers that ended in KAL_OK since the last reset.
  function Completed(l: Link, inputs: seq<Input>): nat
    requires Shape(l) && ValidInputs(inputs)
    decreases |inputs|
  {
    if inputs == [] then 0
    else
      var n := |inputs| - 1;
      if inputs[n].Restart? then 0
      else Completed(l, inputs[..n]) + (if Succeeds(Run(l, inputs[..n]), inputs[n]) then 1 else 0)
  }

  /** In every run the next id is the role's first plus two for each transfer completed since the last reset, modulo
      2^16; it always has the parity of the role. */
  lemma {:induction false} NumberInEveryRun(cfg: Config, window: nat, inputs: seq<Input>)
    requires ValidConfig(cfg, window) && ValidInputs(inputs)
    ensures var l := Run(Initial(cfg, window), inputs);
      && l.cfg == cfg && l.session.nextMessage == Number(cfg.role, Completed(Initial(cfg, window), inputs))
      && l.session.nextMessage % 2 == if cfg.role.Initiator? then 0 else 1
    decreases |inputs|
  {
    hide Inv, Shape, Step, Succeeds, Recompute, NoneSet, NoSegments, NoDuplicates, ZeroChallenge;
    if inputs != [] {
      var n := |inputs| - 1;
      NumberInEveryRun(cfg, window, inputs[..n]);
      RunInv(cfg, window, inputs[..n]);
      assert ValidInput(inputs[n]);
      StepNumber(Run(Initial(cfg, window), inputs[..n]), inputs[n]);
      Exhaustion.ConfigKept(Run(Initial(cfg, window), inputs[..n]), inputs[n]);
    }
  }

  /** Two transfers with fewer than 32768 completed ones from the first to the second, and no reset, have different
      ids. */
  lemma TransfersToldApart(cfg: Config, window: nat, earlier: seq<Input>, later: seq<Input>)
    requires ValidConfig(cfg, window) && ValidInputs(earlier) && ValidInputs(later)
    requires Completed(Initial(cfg, window), earlier) < Completed(Initial(cfg, window), later)
      < Completed(Initial(cfg, window), earlier) + 0x8000
    ensures Run(Initial(cfg, window), earlier).session.nextMessage
         != Run(Initial(cfg, window), later).session.nextMessage
  {
    hide Run, Initial, Completed, Number;
    NumberInEveryRun(cfg, window, earlier);
    NumberInEveryRun(cfg, window, later);
    NumbersDiffer(cfg.role, Completed(Initial(cfg, window), earlier), Completed(Initial(cfg, window), later));
  }

  // ------------------------------------------------------------ one message per key

  // No reset, and no transfer ends but in KAL_OK.
  predicate Persists(n: Node, i: Input)
    requires Shape(n.link) && ValidInput(i)
  {
    !i.Restart? && (n.link.tx.active && !Step(n.link, i).0.tx.active ==> Succeeds(n.link, i))
  }

  // An id used by one of the first k transfers.
  predicate Past(role: Role, k: nat, message: u16) {
    exists j: nat :: j < k && message == Number(role, j)
  }

  // After k completed transfers the keys used carry past ids, or the current one and the current message.
  ghost predicate Numbered(n: Node, k: nat) {
    var l := n.link;
    && l.session.nextMessage == Number(l.cfg.role, k)
    && (l.tx.active ==> l.tx.message == l.session.nextMessage)
    && forall key :: key in n.sent ==>
      || Past(l.cfg.role, k, key.message)
      || (l.tx.active && key.message == l.tx.message && n.sent[key] == n.sending)
  }

  lemma NotPast(role: Role, k: nat)
    requires k < 0x8000
    ensures !Past(role, k, Number(role, k))
  {
    hide Number;
    forall j: nat | j < k
      ensures Number(role, j) != Number(role, k)
    {
      NumbersDiffer(role, j, k);
    }
  }

  lemma PastGrows(role: Role, k: nat, message: u16)
    ensures Past(role, k, message) || message == Number(role, k) ==> Past(role, k + 1, message)
  {
    hide Number;
  }

  lemma PreparedId(l: Link, i: Input, t: Sender)
    requires Shape(l) && SenderShape(t) && Prepared(l, i, t) && t.active
    ensures t.message == (if l.tx.active then l.tx.message else l.session.nextMessage)
    ensures !l.tx.active ==> Taken(l, i)
  {
    hide Acknowledges, AckedAfter, InflightAfter, FirstClear, Chunks, Transfer, SegmentCount, Codec.Decode, BackOff,
      NoneSet, NoSegments, Retries;
  }

  // A transfer keeps the id it was loaded under.
  lemma IdKept(l: Link, i: Input)
    requires Inv(l) && ValidInput(i) && !i.Restart? && Step(l, i).0.tx.active
    ensures Step(l, i).0.tx.message == if l.tx.active then l.tx.message else l.session.nextMessage
    ensures !l.tx.active ==> Taken(l, i)
  {
    hide TxInv, RxInv, RowsInv, SessionInv, Step, Originated, FreshData, IsData, Prepared, Taken;
    if Adds(i) {
      var t := StepEffect(l, i);
      PreparedId(l, i, t);
    } else {
      EmptyingTotal(l, i);
    }
  }

  function Next(k: nat, l: Link, i: Input): nat
    requires Shape(l) && ValidInput(i)
  {
    if Succeeds(l, i) then k + 1 else k
  }

  // An event of a link whose transfers do not fail never gives a key a second message.
  lemma NumberedAfter(n: Node, i: Input, k: nat)
    requires Inv(n.link) && ValidInput(i) && Persists(n, i) && Numbered(n, k) && k < 0x8000
    ensures OneMessagePerKey(n, i) && Numbered(After(n, i), Next(k, n.link, i))
  {
    hide TxInv, RxInv, RowsInv, SessionInv, Step, Number, Past, AirAfter, StagedAfter, LatestAfter, DroppedAfter,
      CarriedAfter;
    var l, r := n.link, Step(n.link, i).0;
    StepNumber(l, i);
    Exhaustion.ConfigKept(l, i);
    NotPast(l.cfg.role, k);
    NextNumber(l.cfg.role, k);
    if r.tx.active { IdKept(l, i); }
    forall key | key in n.sent
      ensures Past(l.cfg.role, k + 1, key.message) || !(Past(l.cfg.role, k, key.message)
                || key.message == Number(l.cfg.role, k))
    {
      PastGrows(l.cfg.role, k, key.message);
    }
  }

  lemma NextNumber(role: Role, k: nat)
    ensures (Number(role, k) + 2) % 0x1_0000 == Number(role, k + 1)
  {
  }

  // What the channel and the callers owe, without a word about keys.
  predicate Fair(n: Node, peer: Node, i: Input)
    requires Shape(n.link)
  {
    ValidInput(i) && !i.Announce? && Honest(peer, i) && NewId(n, i) && Persists(n, i)
  }

  predicate AllFair(s: System, turns: seq<Turn>)
    requires Shaped(s) && Valid(turns)
    decreases |turns|
  {
    turns == [] ||
    var n := |turns| - 1;
    var before := Play(s, turns[..n]);
    AllFair(s, turns[..n]) && Fair(Actor(before, turns[n]), Peer(before, turns[n]), turns[n].input)
  }

  // The transfers a side completed.
  function Count(s: System, turns: seq<Turn>, first: bool): nat
    requires Shaped(s) && Valid(turns)
    decreases |turns|
  {
    if turns == [] then 0
    else
      var n := |turns| - 1;
      var before := Play(s, turns[..n]);
      if turns[n].first == first then Next(Count(s, turns[..n], first), Actor(before, turns[n]).link, turns[n].input)
      else Count(s, turns[..n], first)
  }

  /** The hypothesis on keys follows where no transfer fails: in a run over an honest channel without beacons and
      resets, with new session ids and fewer than 32768 transfers completed a side, no key ever carries two messages. */
  lemma {:induction false} FairIsOrderly(cfgA: Config, windowA: nat, cfgB: Config, windowB: nat, turns: seq<Turn>)
    requires ValidConfig(cfgA, windowA) && ValidConfig(cfgB, windowB)
    requires var s := Start(cfgA, windowA, cfgB, windowB);
      Valid(turns) && AllFair(s, turns) && Count(s, turns, true) < 0x8000 && Count(s, turns, false) < 0x8000
    ensures var s := Start(cfgA, windowA, cfgB, windowB);
      && Orderly(s, turns) && Inv(Play(s, turns).a.link) && Inv(Play(s, turns).b.link)
      && Numbered(Play(s, turns).a, Count(s, turns, true)) && Numbered(Play(s, turns).b, Count(s, turns, false))
    decreases |turns|
  {
    hide After, Inv, Numbered, OneMessagePerKey, Honest, NewId, Persists, Fresh, Succeeds, Step;
    var s := Start(cfgA, windowA, cfgB, windowB);
    if turns == [] {
      FreshNumbered(cfgA, windowA);
      FreshNumbered(cfgB, windowB);
    } else {
      var n := |turns| - 1;
      FairIsOrderly(cfgA, windowA, cfgB, windowB, turns[..n]);
      var before, t := Play(s, turns[..n]), turns[n];
      NumberedAfter(Actor(before, t), t.input, Count(s, turns[..n], t.first));
      AfterInv(Actor(before, t), t.input);
    }
  }

  lemma AfterInv(n: Node, i: Input)
    requires Inv(n.link) && ValidInput(i)
    ensures Inv(After(n, i).link)
  {
    hide TxInv, RxInv, RowsInv, SessionInv, Step, AirAfter, SentAfter, StagedAfter, LatestAfter, DroppedAfter,
      CarriedAfter;
    StepInv(n.link, i);
  }

  lemma FreshNumbered(cfg: Config, window: nat)
    requires ValidConfig(cfg, window)
    ensures Inv(Fresh(cfg, window).link) && Numbered(Fresh(cfg, window), 0)
  {
    hide Inv, Recompute, NoDuplicates, NoneSet, NoSegments, ZeroChallenge;
    InitialInv(cfg, window);
  }

  /** So end-to-end agreement needs no hypothesis on keys where no transfer fails. */
  lemma FairRunsAgree(cfgA: Config, windowA: nat, cfgB: Config, windowB: nat, turns: seq<Turn>)
    requires ValidConfig(cfgA, windowA) && ValidConfig(cfgB, windowB)
    requires var s := Start(cfgA, windowA, cfgB, windowB);
      Valid(turns) && AllFair(s, turns) && Count(s, turns, true) < 0x8000 && Count(s, turns, false) < 0x8000
    ensures var s := Play(Start(cfgA, windowA, cfgB, windowB), turns); Agrees(s.a, s.b) && Agrees(s.b, s.a)
  {
    hide Start, Play, AllFair, Count, Orderly, Agrees, Numbered, Inv;
    FairIsOrderly(cfgA, windowA, cfgB, windowB, turns);
    EndToEndAgreement(cfgA, windowA, cfgB, windowB, turns);
  }
}
