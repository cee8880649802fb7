/**
  The PCM boundary of src/kal_link.c: kal_rx_push_s16 and kal_tx_pull_s16. What they do to the link does not depend on
  how the caller slices the sample streams.
 */
module Pcm {
  import opened Wire
  import opened LinkSpec
  import opened Reachable
  import opened Invariant
  import opened Effects
  import opened Deadlines
  import opened Modem
  import Answers
  import Codec
  import Ledger
  import LinkMachine

  // ------------------------------------------------------------ inbound

  // A modem as seen from its sample stream.
  type Hearing<!S> = (S, Sample) -> (S, Option<Codec.Raw>)

  datatype Endpoint<S> = Endpoint(link: Link, modem: S)

  // A sample that may complete a frame.
  function Absorb1<S>(hear: Hearing<S>, e: Endpoint<S>, s: Sample): (r: Endpoint<S>)
    requires Shape(e.link)
    ensures Shape(r.link)
  {
    var (modem, frame) := hear(e.modem, s);
    Endpoint(if frame.Some? then Hear(e.link, frame.value).0 else e.link, modem)
  }

  function Absorb<S>(hear: Hearing<S>, e: Endpoint<S>, samples: seq<Sample>): (r: Endpoint<S>)
    requires Shape(e.link)
    ensures Shape(r.link)
    decreases |samples|
  {
    if samples == [] then e else Absorb1(hear, Absorb(hear, e, samples[..|samples| - 1]), samples[|samples| - 1])
  }

  /** kal_rx_push_s16 */
  function Push<S>(hear: Hearing<S>, e: Endpoint<S>, samples: seq<Sample>, time: nat): (r: Endpoint<S>)
    requires Shape(e.link)
    ensures Shape(r.link)
  {
    Absorb(hear, e.(link := AdvanceTime(e.link, time)), samples)
  }

  // What handling the frame a sample completes reports.
  function Handled<S>(hear: Hearing<S>, e: Endpoint<S>, s: Sample): Result
    requires Shape(e.link)
  {
    var frame := hear(e.modem, s).1;
    if frame.Some? then Hear(e.link, frame.value).1 else Success
  }

  // The last delivery or cancellation among the samples.
  function Notable<S>(hear: Hearing<S>, e: Endpoint<S>, samples: seq<Sample>): Result
    requires Shape(e.link)
    decreases |samples|
  {
    if samples == [] then Success
    else
      var n := |samples| - 1;
      var handled := Handled(hear, Absorb(hear, e, samples[..n]), samples[n]);
      if handled == Delivered || handled == Cancelled then handled else Notable(hear, e, samples[..n])
  }

  /** The value kal_rx_push_s16 returns. */
  function PushResult<S>(hear: Hearing<S>, e: Endpoint<S>, samples: seq<Sample>, time: nat): Result
    requires Shape(e.link)
  {
    var notable := Notable(hear, e.(link := AdvanceTime(e.link, time)), samples);
    if notable == Success && Push(hear, e, samples, time).link.delivery.ready then Delivered else notable
  }

  // What handling the frame the i-th sample completes reports.
  function Report<S>(hear: Hearing<S>, e: Endpoint<S>, samples: seq<Sample>, i: nat): Result
    requires Shape(e.link) && i < |samples|
  {
    Handled(hear, Absorb(hear, e, samples[..i]), samples[i])
  }

  predicate WorthTelling(r: Result) {
    r == Delivered || r == Cancelled
  }

  lemma {:induction false} NotableIsLast<S>(hear: Hearing<S>, e: Endpoint<S>, samples: seq<Sample>) returns (last: int)
    requires Shape(e.link)
    ensures -1 <= last < |samples|
    ensures forall i | last < i < |samples| :: !WorthTelling(Report(hear, e, samples, i))
    ensures 0 <= last ==> WorthTelling(Report(hear, e, samples, last))
    ensures Notable(hear, e, samples) == if 0 <= last then Report(hear, e, samples, last) else Success
    decreases |samples|
  {
    hide Shape, Absorb, Handled;
    if samples == [] {
      last := -1;
    } else {
      var n := |samples| - 1;
      last := n;
      if !WorthTelling(Report(hear, e, samples, n)) {
        last := NotableIsLast(hear, e, samples[..n]);
        forall i | 0 <= i < n ensures Report(hear, e, samples, i) == Report(hear, e, samples[..n], i) {
          assert samples[..n][..i] == samples[..i];
        }
      }
    }
  }

  /** A push reports the last delivery or cancellation among the frames it completed. Without one it reports a message
      still waiting for collection, if there is one. */
  lemma PushReports<S>(hear: Hearing<S>, e: Endpoint<S>, samples: seq<Sample>, time: nat) returns (last: int)
    requires Shape(e.link)
    ensures -1 <= last < |samples|
    ensures var started := e.(link := AdvanceTime(e.link, time));
      && (forall i | last < i < |samples| :: !WorthTelling(Report(hear, started, samples, i)))
      && (0 <= last ==> WorthTelling(Report(hear, started, samples, last)))
      && PushResult(hear, e, samples, time)
           == (if 0 <= last then Report(hear, started, samples, last)
               else if Push(hear, e, samples, time).link.delivery.ready then Delivered else Success)
  {
    hide Shape, Absorb, AdvanceTime, Notable, Report;
    last := NotableIsLast(hear, e.(link := AdvanceTime(e.link, time)), samples);
  }

  lemma {:induction false} NotableSplits<S>(hear: Hearing<S>, e: Endpoint<S>, a: seq<Sample>, b: seq<Sample>)
    requires Shape(e.link)
    ensures var later := Notable(hear, Absorb(hear, e, a), b);
            Notable(hear, e, a + b) == if later == Success then Notable(hear, e, a) else later
    decreases |b|
  {
    hide Shape, Absorb, Handled;
    if b == [] {
      assert a + b == a;
    } else {
      var n := |b| - 1;
      assert (a + b)[..|a + b| - 1] == a + b[..n];
      NotableSplits(hear, e, a, b[..n]);
      AbsorbSplits(hear, e, a, b[..n]);
    }
  }

  lemma {:induction false} AbsorbSplits<S>(hear: Hearing<S>, e: Endpoint<S>, a: seq<Sample>, b: seq<Sample>)
    requires Shape(e.link)
    ensures Absorb(hear, e, a + b) == Absorb(hear, Absorb(hear, e, a), b)
    decreases |b|
  {
    hide Shape, Absorb1;
    if b == [] {
      assert a + b == a;
    } else {
      assert (a + b)[..|a + b| - 1] == a + b[..|b| - 1];
      AbsorbSplits(hear, e, a, b[..|b| - 1]);
    }
  }

  lemma {:induction false} AbsorbPunctual<S>(hear: Hearing<S>, e: Endpoint<S>, samples: seq<Sample>)
    requires Shape(e.link) && Punctual(e.link)
    ensures var r := Absorb(hear, e, samples).link; Punctual(r) && r.timer.now == e.link.timer.now
    decreases |samples|
  {
    hide Shape, Punctual, Hear;
    if samples != [] {
      var n := |samples| - 1;
      AbsorbPunctual(hear, e, samples[..n]);
      var before := Absorb(hear, e, samples[..n]);
      var frame := hear(before.modem, samples[n]).1;
      if frame.Some? { HearPunctual(before.link, frame.value); }
    }
  }

  /** A push is heard at the caller's time, and leaves no deadline that has passed. */
  lemma PushPunctual<S>(hear: Hearing<S>, e: Endpoint<S>, samples: seq<Sample>, time: nat)
    requires Shape(e.link) && Prompt(e.link.timer)
    ensures var (now, r) := (e.link.timer.now, Push(hear, e, samples, time).link);
            Punctual(r) && r.timer.now == if time > now then time else now
  {
    hide Absorb, AdvanceTime, Shape, Prompt, Punctual;
    AdvancePunctual(e.link, time);
    Answers.ClockFollows(e.link, time);
    AbsorbPunctual(hear, e.(link := AdvanceTime(e.link, time)), samples);
  }

  /** Pushing a + b at one time leaves the link and the modem exactly as pushing a and then b at that time, wherever the
      stream is cut. */
  lemma ChunkingInvariance<S>(hear: Hearing<S>, e: Endpoint<S>, a: seq<Sample>, b: seq<Sample>, time: nat)
    requires Shape(e.link) && Prompt(e.link.timer)
    ensures Push(hear, e, a + b, time) == Push(hear, Push(hear, e, a, time), b, time)
  {
    hide Absorb, AdvanceTime, Shape, Prompt, Ahead;
    var started := e.(link := AdvanceTime(e.link, time));
    AbsorbSplits(hear, started, a, b);
    AdvancePunctual(e.link, time);
    AbsorbPunctual(hear, started, a);
    AdvanceAgain(Absorb(hear, started, a).link, time);
  }

  /** The same for every link a run reaches, so for every link a caller can hold. */
  lemma ChunkingInEveryRun<S>(hear: Hearing<S>, modem: S, cfg: Config, window: nat, inputs: seq<Input>, a: seq<Sample>,
      b: seq<Sample>, time: nat)
    requires ValidConfig(cfg, window) && ValidInputs(inputs)
    ensures var e := Endpoint(Run(Initial(cfg, window), inputs), modem);
            Push(hear, e, a + b, time) == Push(hear, Push(hear, e, a, time), b, time)
  {
    hide Run, Initial, Push, Prompt;
    PromptInEveryRun(cfg, window, inputs);
    ChunkingInvariance(hear, Endpoint(Run(Initial(cfg, window), inputs), modem), a, b, time);
  }

  // ------------------------------------------------------------ outbound

  // kal_modem_encode: the samples of one 64-byte row, or nothing when the engine refuses it.
  type Encoder = Codec.Raw -> Option<seq<Sample>>

  function RowBytes(row: Row): (raw: Codec.Raw)
    requires RowOk(row)
    ensures |raw| == FRAME_BYTES
  {
    match row
    case Sent(frame) => Codec.Encode(frame)
    case Blank => Codec.Zeros(FRAME_BYTES)
  }

  /** A link and what is left of the frame on air. */
  datatype Line = Line(link: Link, pcm: seq<Sample>)

  predicate RingOk(l: Link) {
    Shape(l) && forall k | 0 <= k < |l.out| :: RowOk(l.out[k])
  }

  // The frame to transmit next, when one may start.
  function Started(encode: Encoder, line: Line, busy: bool): (r: (Line, Result))
    requires RingOk(line.link)
    ensures RingOk(r.0.link)
  {
    if line.pcm != [] then (line, HaveOutput)
    else if line.link.out == [] || busy then (line, WantInput)
    else
      var encoded := encode(RowBytes(line.link.out[0]));
      if encoded.None? then (line, ModemFailure)
      else (Line(TakeRow(line.link).0, encoded.value), HaveOutput)
  }

  /** What kal_tick tells the caller to do next: collect a message, pull samples, or push some. */
  function Prospect(line: Line): Result {
    if line.link.delivery.ready then Delivered else if line.link.out != [] || line.pcm != [] then HaveOutput
      else WantInput
  }

  // The rest of the frame on air, as much as fits.
  function Given(line: Line, capacity: nat): (Line, seq<Sample>) {
    var take := if |line.pcm| < capacity then |line.pcm| else capacity;
    (line.(pcm := line.pcm[take..]), line.pcm[..take])
  }

  /** kal_tx_pull_s16 after advance_time; `busy` is what carrier sense reports. */
  function Pull(encode: Encoder, line: Line, capacity: nat, busy: bool): (r: (Line, Result, seq<Sample>))
    requires RingOk(line.link)
    ensures RingOk(r.0.link)
  {
    if capacity == 0 then (line, WantInput, [])
    else
      var (started, status) := Started(encode, line, busy);
      if status != HaveOutput then (started, status, [])
      else (Given(started, capacity).0, HaveOutput, Given(started, capacity).1)
  }

  /** Carrier sense holds back only the start of a frame: on a busy channel nothing leaves the ring, and samples come
      exactly from a frame already on air. */
  lemma BusyHoldsBack(encode: Encoder, line: Line, capacity: nat)
    requires RingOk(line.link)
    ensures var (r, status, samples) := Pull(encode, line, capacity, true);
      && r.link == line.link && samples + r.pcm == line.pcm
      && (status == HaveOutput <==> samples != []) && (samples != [] <==> line.pcm != [] && 0 < capacity)
  {
    hide RingOk, RowBytes;
  }

  /** kal_tick reports a message exactly when one waits; else it reports output exactly when a pull on a free channel
      would yield some, if the engine encodes what is in the ring, and otherwise asks for input. */
  lemma ProspectIsPull(encode: Encoder, line: Line, capacity: nat)
    requires RingOk(line.link) && 0 < capacity
    requires forall k | 0 <= k < |line.link.out| ::
      encode(RowBytes(line.link.out[k])).Some? && encode(RowBytes(line.link.out[k])).value != []
    ensures var (_, status, samples) := Pull(encode, line, capacity, false);
      && (status == HaveOutput <==> samples != [])
      && Prospect(line) == (if line.link.delivery.ready then Delivered
                            else if samples != [] then HaveOutput else WantInput)
  {
    hide RingOk, RowBytes;
  }

  // ------------------------------------------------------------ what is heard on air

  /** A line with the record of a run: every sample pulled, every row taken from the ring, every row ever queued. */
  datatype Tape = Tape(line: Line, spoken: seq<Sample>, taken: seq<Row>, queued: seq<Row>)

  datatype Event = Call(input: Input) | Draw(capacity: nat, busy: bool)

  // Any event; the modem dequeues through Draw.
  predicate Plays(e: Event) {
    e.Call? ==> ValidInput(e.input) && !e.input.Transmit?
  }

  // kal_link_reset drops what is left of the frame on air with everything else.
  function Cleared(line: Line): Line
    requires Shape(line.link)
  {
    Line(Step(line.link, Restart).0, [])
  }

  // A reset starts a new tape.
  function Next(encode: Encoder, t: Tape, e: Event): (r: Tape)
    requires Inv(t.line.link) && Plays(e)
    ensures Inv(r.line.link)
  {
    hide TxInv, RxInv, SessionInv, RowsInv, Step, Pull, Started;
    match e
    case Call(input) =>
      StepInv(t.line.link, input);
      if input.Restart? then Tape(Cleared(t.line), [], [], [])
      else
        var r := Step(t.line.link, input).0;
        t.(line := Line(r, t.line.pcm), queued := t.queued + Ledger.Appended(t.line.link, r))
    case Draw(capacity, busy) =>
      InvRing(t.line.link);
      var (line, _, samples) := Pull(encode, t.line, capacity, busy);
      PullLink(encode, t.line, capacity, busy);
      Tape(line, t.spoken + samples, if line.link.out == t.line.link.out then t.taken
        else t.taken + [t.line.link.out[0]], t.queued)
  }

  lemma InvRing(l: Link)
    requires Inv(l)
    ensures RingOk(l)
  {
    hide TxInv, RxInv, RowOk;
  }

  // Pulling touches the link only by dequeuing its oldest row.
  lemma PullLink(encode: Encoder, line: Line, capacity: nat, busy: bool)
    requires Inv(line.link) && RingOk(line.link)
    ensures var r := Pull(encode, line, capacity, busy).0.link;
            Inv(r) && (r == line.link || (line.link.out != [] && r == TakeRow(line.link).0))
  {
    hide TxInv, RxInv, SessionInv, RowsInv, RowOk, RowBytes;
    TakeInv(line.link, 0);
  }

  // The samples of rows, end to end; a row the engine refuses never leaves the ring.
  function Voice(encode: Encoder, rows: seq<Row>): seq<Sample> {
    if rows == [] then []
    else
      var row := rows[|rows| - 1];
      Voice(encode, rows[..|rows| - 1])
        + (if RowOk(row) && encode(RowBytes(row)).Some? then encode(RowBytes(row)).value else [])
  }

  // The ring is the part of the queue not yet taken, and what was pulled and what is left of the frame on air are the
  // samples of the rows taken.
  predicate InOrder(encode: Encoder, t: Tape) {
    && t.queued == t.taken + t.line.link.out
    && t.spoken + t.line.pcm == Voice(encode, t.taken)
  }

  lemma VoiceGrows(encode: Encoder, rows: seq<Row>, row: Row)
    requires RowOk(row) && encode(RowBytes(row)).Some?
    ensures Voice(encode, rows + [row]) == Voice(encode, rows) + encode(RowBytes(row)).value
  {
    assert (rows + [row])[..|rows|] == rows;
  }

  lemma CallInOrder(encode: Encoder, t: Tape, input: Input)
    requires Inv(t.line.link) && Plays(Call(input)) && !input.Restart? && InOrder(encode, t)
    ensures InOrder(encode, Next(encode, t, Call(input)))
  {
    hide TxInv, RxInv, SessionInv, RowsInv, Step, Pull, Voice, Prepared, FreshData, Originated;
    var l, r := t.line.link, Step(t.line.link, input).0;
    var _ := StepEffect(l, input);
    assert r.out == l.out + r.out[|l.out|..];
    assert t.taken + (l.out + r.out[|l.out|..]) == (t.taken + l.out) + r.out[|l.out|..];
  }

  lemma ClearedInOrder(encode: Encoder, t: Tape)
    requires Inv(t.line.link)
    ensures InOrder(encode, Next(encode, t, Call(Restart)))
  {
    hide TxInv, RxInv, SessionInv, RowsInv, Shape, Recompute, NoDuplicates, NoneSet, NoSegments, Send, Beacon, Cancel,
      AdvanceTime, Hear, TakeRow, Collect;
  }

  lemma GivenSplits(line: Line, capacity: nat)
    ensures Given(line, capacity).1 + Given(line, capacity).0.pcm == line.pcm
    ensures Given(line, capacity).0.link == line.link
  {
  }

  // Starting a frame moves the oldest row from the ring to the air.
  lemma StartInOrder(encode: Encoder, t: Tape, busy: bool)
    requires Inv(t.line.link) && RingOk(t.line.link) && InOrder(encode, t)
    ensures var line := Started(encode, t.line, busy).0;
      InOrder(encode, Tape(line, t.spoken, if line.link.out == t.line.link.out then t.taken
        else t.taken + [t.line.link.out[0]], t.queued))
  {
    hide Inv, Shape, Voice, RowBytes, RowOk;
    if t.line.pcm == [] && t.line.link.out != [] {
      var row := t.line.link.out[0];
      if encode(RowBytes(row)).Some? { VoiceGrows(encode, t.taken, row); }
      assert t.spoken + [] == t.spoken;
      assert t.taken + t.line.link.out == (t.taken + [row]) + t.line.link.out[1..];
    }
  }

  lemma DrawInOrder(encode: Encoder, t: Tape, capacity: nat, busy: bool)
    requires Inv(t.line.link) && InOrder(encode, t)
    ensures InOrder(encode, Next(encode, t, Draw(capacity, busy)))
  {
    hide Inv, Shape, Voice, Given, Started, RingOk;
    InvRing(t.line.link);
    PullLink(encode, t.line, capacity, busy);
    assert t.spoken + [] == t.spoken;
    if capacity != 0 {
      var started := Started(encode, t.line, busy).0;
      StartInOrder(encode, t, busy);
      GivenSplits(started, capacity);
      var (line, samples) := Given(started, capacity);
      assert (t.spoken + samples) + line.pcm == t.spoken + (samples + line.pcm);
      NotStarted(encode, t.line, busy);
    }
  }

  lemma NotStarted(encode: Encoder, line: Line, busy: bool)
    requires RingOk(line.link)
    ensures Started(encode, line, busy).1 != HaveOutput ==> Started(encode, line, busy).0 == line
  {
    hide RingOk, RowBytes;
  }

  predicate AllPlay(events: seq<Event>) {
    forall e <- events :: Plays(e)
  }

  function Recording(encode: Encoder, t: Tape, events: seq<Event>): (r: Tape)
    requires Inv(t.line.link) && AllPlay(events)
    ensures Inv(r.line.link)
    decreases |events|
  {
    hide Inv, Next;
    if events == [] then t else Next(encode, Recording(encode, t, events[..|events| - 1]), events[|events| - 1])
  }

  lemma {:induction false} RecordingInOrder(encode: Encoder, t: Tape, events: seq<Event>)
    requires Inv(t.line.link) && AllPlay(events) && InOrder(encode, t)
    ensures InOrder(encode, Recording(encode, t, events))
    decreases |events|
  {
    hide Inv, Next, InOrder;
    if events != [] {
      var n := |events| - 1;
      RecordingInOrder(encode, t, events[..n]);
      match events[n]
      case Call(input) =>
        var before := Recording(encode, t, events[..n]);
        if input.Restart? { ClearedInOrder(encode, before); } else { CallInOrder(encode, before, input); }
      case Draw(capacity, busy) => DrawInOrder(encode, Recording(encode, t, events[..n]), capacity, busy);
    }
  }

  /** For any interleaving of link events and pulls of any capacities, since the last reset: the rows taken are the
      oldest of those queued, in order, the ring holds the rest, and the samples pulled so far are a prefix of the
      encodings of the rows taken. */
  lemma PulledInOrder(encode: Encoder, cfg: Config, window: nat, events: seq<Event>)
    requires ValidConfig(cfg, window) && AllPlay(events)
    ensures Inv(Initial(cfg, window))
    ensures var r := Recording(encode, Tape(Line(Initial(cfg, window), []), [], [], []), events);
      && r.queued == r.taken + r.line.link.out && |r.line.link.out| <= OUT_QUEUE_FRAMES
      && r.spoken <= Voice(encode, r.taken) && r.spoken + r.line.pcm == Voice(encode, r.taken)
  {
    hide TxInv, RxInv, SessionInv, RowsInv, Recording, NoneSet, NoSegments, Recompute;
    InitialInv(cfg, window);
    RecordingInOrder(encode, Tape(Line(Initial(cfg, window), []), [], [], []), events);
  }

  // ------------------------------------------------------------ the calls themselves

  // The engine-backed modem as seen from its sample stream.
  function Engine<S>(size: nat, decode: Decoder<S>): Hearing<Ear<S>> {
    (ear: Ear<S>, s: Sample) => EarFeed(size, decode, ear, s)
  }

  // A chunk taken at once is its samples taken one by one.
  lemma {:induction false} TakenIsAbsorbed<S>(size: nat, decode: Decoder<S>, e: Endpoint<Ear<S>>, taken: seq<Sample>)
    requires Shape(e.link) && taken != [] && |e.modem.chunk| + |taken| <= size
    ensures var (modem, frame) := Taken(size, decode, e.modem, taken);
            Absorb(Engine(size, decode), e, taken)
              == Endpoint(if frame.Some? then Hear(e.link, frame.value).0 else e.link, modem)
    decreases |taken|
  {
    hide Shape, Hear;
    var n := |taken| - 1;
    assert e.modem.chunk + taken == (e.modem.chunk + taken[..n]) + [taken[n]];
    if n > 0 {
      TakenIsAbsorbed(size, decode, e, taken[..n]);
    } else {
      assert e.modem.chunk + taken[..0] == e.modem.chunk;
      assert Absorb(Engine(size, decode), e, taken[..0]) == e;
    }
  }

  lemma {:induction false} TakenIsNotable<S>(size: nat, decode: Decoder<S>, e: Endpoint<Ear<S>>, taken: seq<Sample>)
    requires Shape(e.link) && taken != [] && |e.modem.chunk| + |taken| <= size
    ensures var frame := Taken(size, decode, e.modem, taken).1;
            var handled := if frame.Some? then Hear(e.link, frame.value).1 else Success;
            Notable(Engine(size, decode), e, taken) == if handled == Delivered || handled == Cancelled then handled
              else Success
    decreases |taken|
  {
    hide Shape, Hear, Absorb;
    var n := |taken| - 1;
    assert e.modem.chunk + taken == (e.modem.chunk + taken[..n]) + [taken[n]];
    if n > 0 {
      TakenIsNotable(size, decode, e, taken[..n]);
      TakenIsAbsorbed(size, decode, e, taken[..n]);
    } else {
      AbsorbNothing(Engine(size, decode), e);
      assert e.modem.chunk + taken[..0] == e.modem.chunk;
    }
  }

  /** The PCM side of struct kal_link: a link, its modem, and the frame on air. */
  class Port<S> {
    const link: LinkMachine.Link
    const modem: Accumulator<S>
    var pcm: seq<Sample>
    var position: nat

    ghost predicate Valid()
      reads this, link, link.Buffers(), modem, modem.chunk
    {
      link.Valid() && modem.Valid() && modem.chunk !in link.Buffers() && position <= |pcm|
    }

    ghost function Inbound(): Endpoint<Ear<S>>
      requires Valid()
      reads this, link, link.Buffers(), modem, modem.chunk
    {
      Endpoint(link.State(), modem.State())
    }

    ghost function Outbound(): Line
      requires Valid()
      reads this, link, link.Buffers(), modem, modem.chunk
    {
      Line(link.State(), pcm[position..])
    }

    constructor (link: LinkMachine.Link, modem: Accumulator<S>)
      requires link.Valid() && modem.Valid() && modem.chunk !in link.Buffers()
      ensures Valid() && this.link == link && this.modem == modem && Outbound().pcm == []
    {
      this.link := link;
      this.modem := modem;
      pcm := [];
      position := 0;
    }

    // One turn of the push loop: feed the modem once, and handle the frame it may complete.
    method PushChunk(decode: Decoder<S>, samples: seq<Sample>) returns (consumed: nat, handled: Result)
      requires Valid() && samples != []
      modifies link, link.Buffers(), modem, modem.chunk
      ensures Valid() && 0 < consumed <= |samples|
      ensures Shape(old(link.State()))
        && Inbound() == Absorb(Engine(modem.size, decode), old(Inbound()), samples[..consumed])
      ensures Notable(Engine(modem.size, decode), old(Inbound()), samples[..consumed])
           == if handled == Delivered || handled == Cancelled then handled else Success
    {
      hide Hear, Absorb, Notable, Taken, Engine, Shape, LinkMachine.Link.State;
      LinkShape();
      ghost var before := Inbound();
      var frame;
      consumed, frame := modem.RxFeed(decode, samples);
      TakenIsAbsorbed(modem.size, decode, before, samples[..consumed]);
      TakenIsNotable(modem.size, decode, before, samples[..consumed]);
      handled := Success;
      if frame.Some? {
        handled := link.Hear(frame.value);
      }
    }

    lemma LinkShape()
      requires Valid()
      ensures Shape(link.State()) && link.State().delivery == link.delivery
    {
    }

    /** kal_rx_push_s16 */
    method PushS16(decode: Decoder<S>, samples: seq<Sample>, time: nat) returns (outcome: Result)
      requires Valid()
      modifies link, link.Buffers(), modem, modem.chunk
      ensures Valid() && Shape(old(link.State()))
      ensures Inbound() == Push(Engine(modem.size, decode), old(Inbound()), samples, time)
      ensures outcome == PushResult(Engine(modem.size, decode), old(Inbound()), samples, time)
    {
      hide AdvanceTime, Absorb, Notable, Engine, Shape, LinkMachine.Link.State;
      LinkShape();
      ghost var hear := Engine(modem.size, decode);
      link.AdvanceTime(time);
      ghost var started := Inbound();
      LinkShape();
      var offset := 0;
      outcome := Success;
      AbsorbNothing(hear, started);
      NotableNothing(hear, started);
      while offset < |samples|
        invariant 0 <= offset <= |samples| && Valid()
        invariant Shape(started.link) && Inbound() == Absorb(hear, started, samples[..offset])
        invariant outcome == Notable(hear, started, samples[..offset])
      {
        var consumed, handled := PushChunk(decode, samples[offset..]);
        if handled == Delivered || handled == Cancelled {
          outcome := handled;
        }
        NotableSplits(hear, started, samples[..offset], samples[offset..][..consumed]);
        AbsorbSplits(hear, started, samples[..offset], samples[offset..][..consumed]);
        assert samples[..offset] + samples[offset..][..consumed] == samples[..offset + consumed];
        offset := offset + consumed;
      }
      assert samples[..offset] == samples;
      LinkShape();
      if outcome == Success && link.delivery.ready {
        outcome := Delivered;
      }
    }

    /** kal_link_reset: the link, the frame on air and the modem's partial chunk. */
    method Reset()
      requires Valid()
      modifies this, link, link.Buffers(), modem, modem.chunk
      ensures Valid() && Shape(old(link.State()))
      ensures Inbound() == Endpoint(LinkSpec.Reset(old(link.State())), old(Inbound()).modem.(chunk := []))
        && Outbound().pcm == []
    {
      hide LinkSpec.Reset, Shape, LinkMachine.Link.State;
      LinkShape();
      link.Reset();
      pcm, position := [], 0;
      modem.RxReset();
    }

    /** kal_tick */
    method Tick(time: nat) returns (result: Result)
      requires Valid()
      modifies link, link.Buffers()
      ensures Valid() && Shape(old(link.State()))
      ensures Inbound() == old(Inbound()).(link := AdvanceTime(old(link.State()), time))
        && Outbound().pcm == old(Outbound()).pcm
      ensures result == Prospect(Outbound())
    {
      hide AdvanceTime, Shape, LinkMachine.Link.State;
      LinkShape();
      link.AdvanceTime(time);
      LinkShape();
      if link.delivery.ready {
        return Delivered;
      }
      var row := link.Oldest();
      return if row.Some? || position < |pcm| then HaveOutput else WantInput;
    }

    // Take the oldest row off the ring and encode it, when nothing is on air.
    method StartFrame(encode: Encoder, busy: bool) returns (result: Result)
      requires Valid() && RingOk(link.State())
      modifies this, link
      ensures Valid()
      ensures (Outbound(), result) == Started(encode, old(Outbound()), busy)
    {
      hide Shape, RowBytes, RowOk, LinkMachine.Link.State;
      if position < |pcm| {
        return HaveOutput;
      }
      var row := link.Oldest();
      if row.None? || busy {
        return WantInput;
      }
      var encoded := encode(RowBytes(row.value));
      if encoded.None? {
        return ModemFailure;
      }
      var _ := link.TakeRow();
      pcm, position := encoded.value, 0;
      return HaveOutput;
    }

    /** kal_tx_pull_s16 */
    method PullS16(encode: Encoder, capacity: nat, time: nat, busy: bool) returns (result: Result, samples: seq<Sample>)
      requires Valid() && Inv(link.State())
      modifies this, link, link.Buffers()
      ensures Valid() && RingOk(AdvanceTime(old(link.State()), time))
      ensures (Outbound(), result, samples)
           == Pull(encode, Line(AdvanceTime(old(link.State()), time), old(Outbound()).pcm), capacity, busy)
    {
      hide AdvanceTime, Shape, RingOk, TxInv, RxInv, SessionInv, RowsInv, LinkMachine.Link.State, Started;
      AdvanceTimeInv(link.State(), time);
      InvRing(AdvanceTime(link.State(), time));
      link.AdvanceTime(time);
      if capacity == 0 {
        return WantInput, [];
      }
      result := StartFrame(encode, busy);
      if result != HaveOutput {
        return result, [];
      }
      var remaining := |pcm| - position;
      var take := if remaining < capacity then remaining else capacity;
      ghost var rest := pcm[position..];
      samples := pcm[position..position + take];
      position := position + take;
      assert samples == rest[..take] && pcm[position..] == rest[take..];
    }
  }

  lemma NotableNothing<S>(hear: Hearing<S>, e: Endpoint<S>)
    requires Shape(e.link)
    ensures forall samples: seq<Sample> :: samples == [] ==> Notable(hear, e, samples) == Success
  {
  }

  lemma AbsorbNothing<S>(hear: Hearing<S>, e: Endpoint<S>)
    requires Shape(e.link)
    ensures forall samples: seq<Sample> :: samples == [] ==> Absorb(hear, e, samples) == e
  {
  }
}
