/**
  No acknowledgement-driven live-lock: however many acknowledgements arrive, the DATA frames a transfer queues are
  bounded by its segments and the number of its deadline expiries.
 */
module Ledger {
  import opened Wire
  import opened LinkSpec
  import opened Reachable
  import opened Invariant
  import opened Effects
  import Codec

  // ------------------------------------------------------------ counting DATA frames

  // The sequence numbers of the DATA frames among rows, in order.
  function Sequences(rows: seq<Row>): (s: seq<nat>)
    ensures |s| <= |rows|
  {
    if rows == [] then []
    else
      var last := rows[|rows| - 1];
      Sequences(rows[..|rows| - 1]) + (if IsData(last) then [last.frame.sequence] else [])
  }

  // The rows an event appended.
  function Appended(l: Link, r: Link): seq<Row> {
    if |l.out| <= |r.out| then r.out[|l.out|..] else []
  }

  predicate Distinct(s: seq<nat>) {
    forall i, j | 0 <= i < j < |s| :: s[i] != s[j]
  }

  lemma {:induction false} DistinctBound(s: seq<nat>, n: nat)
    requires Distinct(s) && forall k | 0 <= k < |s| :: s[k] < n
    ensures |s| <= n
    decreases n
  {
    if |s| > 0 {
      assert 0 <= s[0] < n;
      if k :| 0 <= k < |s| && s[k] == n - 1 {
        var rest := s[..k] + s[k + 1..];
        assert forall j | 0 <= j < |rest| :: rest[j] == s[if j < k then j else j + 1];
        DistinctBound(rest, n - 1);
      } else {
        DistinctBound(s, n - 1);
      }
    }
  }

  // ------------------------------------------------------------ the ledger of one transfer

  /** DATA frames queued since kal_send, deadline expiries that retransmitted, and the sequence numbers queued since the
      last of those. */
  datatype Ledger = Ledger(queued: nat, expiries: nat, since: seq<nat>)

  predicate ExpiresData(l: Link, i: Input) {
    i.Tick? && Retries(l, i.time)
  }

  function Record(g: Ledger, l: Link, i: Input): Ledger
    requires Shape(l) && ValidInput(i)
  {
    var r := Step(l, i).0;
    var d := Sequences(Appended(l, r));
    if !r.tx.active then Ledger(0, 0, [])
    else if !l.tx.active then Ledger(|d|, 0, d)
    else if ExpiresData(l, i) then Ledger(g.queued + |d|, g.expiries + 1, d)
    else Ledger(g.queued + |d|, g.expiries, g.since + d)
  }

  function Recorded(l: Link, inputs: seq<Input>): Ledger
    requires Shape(l) && ValidInputs(inputs)
    decreases |inputs|
  {
    if inputs == [] then Ledger(0, 0, [])
    else
      var n := |inputs| - 1;
      Record(Recorded(l, inputs[..n]), Run(l, inputs[..n]), inputs[n])
  }

  predicate Marked(tx: Sender, s: nat)
    requires SenderShape(tx)
  {
    s < tx.total && (tx.acked[s] || tx.inflight[s])
  }

  predicate AllMarked(tx: Sender, s: seq<nat>)
    requires SenderShape(tx)
  {
    forall k | 0 <= k < |s| :: Marked(tx, s[k])
  }

  predicate Balanced(g: Ledger, tx: Sender)
    requires SenderShape(tx)
  {
    tx.active ==> g.queued <= tx.total * g.expiries + |g.since| && Distinct(g.since) && AllMarked(tx, g.since)
  }

  // ------------------------------------------------------------ one event

  lemma {:induction false} SequencesBelow(rows: seq<Row>, b: nat)
    requires forall j | 0 <= j < |rows| && IsData(rows[j]) :: rows[j].frame.sequence < b
    ensures forall k | 0 <= k < |Sequences(rows)| :: Sequences(rows)[k] < b
    decreases |rows|
  {
    if rows != [] { SequencesBelow(rows[..|rows| - 1], b); }
  }

  // The sequences of rows whose DATA entries are fresh for t are distinct, unmarked in t and marked in r.
  lemma {:induction false} FreshSequences(t: Sender, r: Link, rows: seq<Row>)
    requires Shape(r) && SenderShape(t)
    requires forall k | 0 <= k < |rows| :: IsData(rows[k]) ==> FreshData(t, r, rows[k].frame)
    requires forall j, k | 0 <= j < k < |rows| :: IsData(rows[j]) && IsData(rows[k]) ==>
      rows[j].frame.sequence < rows[k].frame.sequence
    ensures forall k | 0 <= k < |Sequences(rows)| :: !Marked(t, Sequences(rows)[k]) && Marked(r.tx, Sequences(rows)[k])
    ensures forall i, j | 0 <= i < j < |Sequences(rows)| :: Sequences(rows)[i] < Sequences(rows)[j]
    decreases |rows|
  {
    hide Shape, DataFrame;
    if rows != [] {
      var n := |rows| - 1;
      FreshSequences(t, r, rows[..n]);
      if IsData(rows[n]) { SequencesBelow(rows[..n], rows[n].frame.sequence); }
    }
  }

  lemma SendsSequences(t: Sender, l: Link, r: Link)
    requires Shape(l) && Shape(r) && SenderShape(t) && Sends(t, l, r)
    ensures var d := Sequences(Appended(l, r));
            Distinct(d) && AllMarked(r.tx, d) && forall k | 0 <= k < |d| :: !Marked(t, d[k])
  {
    hide Shape, FreshData, Sequences, Marked, IsData;
    FreshSequences(t, r, Appended(l, r));
  }

  lemma SendsKeepsMarks(t: Sender, l: Link, r: Link, s: seq<nat>)
    requires Shape(l) && Shape(r) && SenderShape(t) && Sends(t, l, r) && AllMarked(t, s)
    ensures AllMarked(r.tx, s)
  {
    hide Shape, FreshData, IsData;
  }

  lemma AckKeepsMarks(tx: Sender, f: Frame, s: seq<nat>)
    requires SenderShape(tx) && AllMarked(tx, s)
    ensures AllMarked(MarkAcked(tx, f), s)
  {
    hide Names, FirstClear;
  }

  lemma {:induction false} SinceBound(tx: Sender, s: seq<nat>)
    requires SenderShape(tx) && Distinct(s) && AllMarked(tx, s)
    ensures |s| <= tx.total
  {
    DistinctBound(s, tx.total);
  }

  // A transfer that goes on: the frames queued join those queued since the last expiry.
  lemma GoOn(g: Ledger, t: Sender, l: Link, r: Link)
    requires Shape(l) && Shape(r) && SenderShape(t) && Sends(t, l, r)
    requires t.active && Balanced(g, t)
    ensures var d := Sequences(Appended(l, r)); Balanced(Ledger(g.queued + |d|, g.expiries, g.since + d), r.tx)
  {
    hide FreshData, Sequences, Marked, IsData;
    var d := Sequences(Appended(l, r));
    SendsSequences(t, l, r);
    SendsKeepsMarks(t, l, r, g.since);
    assert r.tx.total == t.total;
  }

  // An expiry closes the account of the frames queued before it.
  lemma CloseAccount(g: Ledger, l: Link, t: Sender, r: Link)
    requires Shape(l) && Shape(r) && SenderShape(t) && Sends(t, l, r)
    requires t.active && t.total == l.tx.total && l.tx.active && Balanced(g, l.tx)
    ensures var d := Sequences(Appended(l, r)); Balanced(Ledger(g.queued + |d|, g.expiries + 1, d), r.tx)
  {
    hide FreshData, Sequences, Marked, IsData, AllMarked, Distinct;
    SendsSequences(t, l, r);
    SinceBound(l.tx, g.since);
    assert r.tx.total == t.total;
  }

  lemma EmptyingBalanced(g: Ledger, l: Link, i: Input)
    requires Shape(l) && ValidInput(i) && (i.Transmit? || i.Restart?) && Balanced(g, l.tx)
    ensures Balanced(Record(g, l, i), Step(l, i).0.tx)
  {
    hide Shape, Step, Marked, Distinct, AllMarked;
    EmptyingTotal(l, i);
    assert Appended(l, Step(l, i).0) == [];
    assert g.since + [] == g.since;
  }

  lemma AckBalanced(g: Ledger, tx: Sender, f: Frame)
    requires SenderShape(tx) && Balanced(g, tx)
    ensures Balanced(g, MarkAcked(tx, f))
  {
    hide Marked, Distinct, AllMarked, AckedAfter, InflightAfter, FirstClear;
    if tx.active { AckKeepsMarks(tx, f, g.since); }
  }

  // The account after an event that adds to the ring, by what it made of the sender first.
  lemma AddsBalanced(g: Ledger, l: Link, i: Input, t: Sender)
    requires Inv(l) && ValidInput(i) && Balanced(g, l.tx) && SenderShape(t) && t.active
    requires Prepared(l, i, t) && Sends(t, l, Step(l, i).0)
    ensures Balanced(Record(g, l, i), Step(l, i).0.tx)
  {
    hide TxInv, RxInv, SessionInv, RowsInv, Step, Sequences, Appended, Retries, MarkAcked, Load, FreshData, IsData,
      BackOff, Codec.Decode, Matches;
    var r := Step(l, i).0;
    if ExpiresData(l, i) {
      CloseAccount(g, l, t, r);
    } else if !l.tx.active {
      GoOn(Ledger(0, 0, []), t, l, r);
      assert [] + Sequences(Appended(l, r)) == Sequences(Appended(l, r));
    } else {
      if t != l.tx { AckBalanced(g, l.tx, Codec.Decode(i.raw).frame); }
      GoOn(g, t, l, r);
    }
  }

  lemma StepBalanced(g: Ledger, l: Link, i: Input)
    requires Inv(l) && ValidInput(i) && Balanced(g, l.tx)
    ensures Balanced(Record(g, l, i), Step(l, i).0.tx)
  {
    hide TxInv, RxInv, SessionInv, RowsInv, Step, Originated, Record, Prepared, FreshData, IsData;
    if !Adds(i) {
      EmptyingBalanced(g, l, i);
    } else {
      var t := StepEffect(l, i);
      if t.active { AddsBalanced(g, l, i, t); } else { }
    }
  }

  // ------------------------------------------------------------ every run

  lemma {:induction false} RunBalanced(cfg: Config, window: nat, inputs: seq<Input>)
    requires ValidConfig(cfg, window) && ValidInputs(inputs)
    ensures Balanced(Recorded(Initial(cfg, window), inputs), Run(Initial(cfg, window), inputs).tx)
    decreases |inputs|
  {
    hide Inv, Step, Record;
    if inputs == [] {
    } else {
      var n := |inputs| - 1;
      RunBalanced(cfg, window, inputs[..n]);
      RunInv(cfg, window, inputs[..n]);
      StepBalanced(Recorded(Initial(cfg, window), inputs[..n]), Run(Initial(cfg, window), inputs[..n]), inputs[n]);
    }
  }

  /** In every run, the transfer under way has queued each segment at most once since its last deadline expiry, and at
      most tx_total * (expiries + 1) DATA frames altogether. */
  lemma NoAckLiveLock(cfg: Config, window: nat, inputs: seq<Input>)
    requires ValidConfig(cfg, window) && ValidInputs(inputs)
    ensures var g, tx := Recorded(Initial(cfg, window), inputs), Run(Initial(cfg, window), inputs).tx;
            tx.active ==> Distinct(g.since) && |g.since| <= tx.total && g.queued <= tx.total * (g.expiries + 1)
  {
    hide Run, Recorded, Initial, Marked, Distinct;
    var g, tx := Recorded(Initial(cfg, window), inputs), Run(Initial(cfg, window), inputs).tx;
    RunBalanced(cfg, window, inputs);
    if tx.active {
      SinceBound(tx, g.since);
    }
  }

  /** An acknowledged segment stays acknowledged for the rest of its transfer and no event queues it again; the
      acknowledged and on-air sets stay disjoint and tx_base never moves back. */
  lemma AckedNeverRequeued(l: Link, i: Input)
    requires Inv(l) && ValidInput(i) && Adds(i) && l.tx.active && Step(l, i).0.tx.active
    ensures var r := Step(l, i).0;
      && r.tx.message == l.tx.message && r.tx.segments == l.tx.segments && r.tx.total == l.tx.total
      && l.tx.base <= r.tx.base
      && (forall s | 0 <= s < MAX_SEGMENTS && l.tx.acked[s] :: r.tx.acked[s])
      && (forall s | 0 <= s < MAX_SEGMENTS :: !(r.tx.acked[s] && r.tx.inflight[s]))
      && Extends(l, r)
      && (forall k | |l.out| <= k < |r.out| && IsData(r.out[k]) ::
            r.out[k].frame.sequence < l.tx.total && !r.tx.acked[r.out[k].frame.sequence])
  {
    hide RxInv, SessionInv, RowsInv, Step, Originated, Retries, Load, IsData, BackOff, AckedAfter, InflightAfter;
    var r := Step(l, i).0;
    var t := StepEffect(l, i);
    StepInv(l, i);
    if t != l.tx && !ExpiresData(l, i) {
      MarkAckedInv(l.tx, Codec.Decode(i.raw).frame);
    }
  }
}
