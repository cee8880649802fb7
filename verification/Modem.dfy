/**
  The modem adapter of src/kal_modem.c: the test passthrough modem with its sliding window, and the chunk accumulator in
  front of the acoustic engine. The engine itself is a parameter: a step function on its state and one chunk of samples.
 */
module Modem {
  import opened Bytes
  import opened Wire
  import Codec

  type Sample = x: int | -32768 <= x < 32768 // int16_t

  const SYNC: seq<Sample> := [-32768, 32767, -32768, 32767]
  const SYNC_SAMPLES := 4
  const TEST_FRAME_SAMPLES := 68

  // ------------------------------------------------------------ the test modem

  /** test_encode: the synchronisation word and one sample a byte. */
  function TestEncode(raw: Codec.Raw): (pcm: seq<Sample>)
    requires |raw| == FRAME_BYTES
    ensures |pcm| == TEST_FRAME_SAMPLES
  {
    SYNC + seq(FRAME_BYTES, i requires 0 <= i < FRAME_BYTES => FromByte(raw[i]))
  }

  // The window after one more sample.
  function Slide(window: seq<Sample>, s: Sample): seq<Sample> {
    (if |window| >= TEST_FRAME_SAMPLES then window[1..] else window) + [s]
  }

  // A full window that starts with the synchronisation word and holds nothing but bytes after it.
  predicate Framed(window: seq<Sample>) {
    && |window| == TEST_FRAME_SAMPLES && window[..SYNC_SAMPLES] == SYNC
    && forall i | 0 <= i < FRAME_BYTES :: IsByte(window, i)
  }

  predicate IsByte(window: seq<Sample>, i: nat)
    requires |window| == TEST_FRAME_SAMPLES && i < FRAME_BYTES
  {
    0 <= window[SYNC_SAMPLES + i] <= 255
  }

  function Contents(window: seq<Sample>): (raw: Codec.Raw)
    requires Framed(window)
    ensures |raw| == FRAME_BYTES
  {
    seq(FRAME_BYTES, i requires 0 <= i < FRAME_BYTES && IsByte(window, i) => ToByte(window[SYNC_SAMPLES + i]))
  }

  /** test_feed */
  function TestFeed(window: seq<Sample>, s: Sample): (seq<Sample>, Option<Codec.Raw>) {
    var w := Slide(window, s);
    if Framed(w) then ([], Some(Contents(w))) else (w, None)
  }

  // All the frames decoded while samples go by, with the window they leave.
  function TestListen(window: seq<Sample>, samples: seq<Sample>): (seq<Sample>, seq<Codec.Raw>) {
    if samples == [] then (window, [])
    else
      var before := TestListen(window, samples[..|samples| - 1]);
      var (after, frame) := TestFeed(before.0, samples[|samples| - 1]);
      (after, before.1 + (if frame.Some? then [frame.value] else []))
  }

  // ------------------------------------------------------------ self-synchronisation

  // The last 68 samples.
  function Tail(s: seq<Sample>): (t: seq<Sample>)
    ensures |t| <= TEST_FRAME_SAMPLES
  {
    if |s| <= TEST_FRAME_SAMPLES then s else s[|s| - TEST_FRAME_SAMPLES..]
  }

  lemma SlideIsTail(s: seq<Sample>, x: Sample)
    ensures Slide(Tail(s), x) == Tail(s + [x])
  {
  }

  // A window that ends with a proper, non-empty part of an encoded frame is no frame, whatever stands before.
  lemma PartIsNoFrame(junk: seq<Sample>, raw: Codec.Raw, k: nat)
    requires |raw| == FRAME_BYTES && 0 < k < TEST_FRAME_SAMPLES
    ensures !Framed(Tail(junk + TestEncode(raw)[..k]))
  {
    var w := Tail(junk + TestEncode(raw)[..k]);
    if |w| == TEST_FRAME_SAMPLES {
      var p := TEST_FRAME_SAMPLES - k;
      assert forall j | 0 <= j < k :: w[p + j] == TestEncode(raw)[j];
      if k == 67 {
        assert w[..4][1] == w[1] == -32768;
      } else if k == 66 {
        assert w[4] == TestEncode(raw)[2] == -32768 && !IsByte(w, 0);
      } else if k == 65 {
        assert w[..4][3] == w[3] == -32768;
      } else {
        assert w[p] == -32768 && !IsByte(w, p - 4);
      }
    }
  }

  lemma WholeIsFrame(junk: seq<Sample>, raw: Codec.Raw)
    requires |raw| == FRAME_BYTES
    ensures var w := Tail(junk + TestEncode(raw)); Framed(w) && Contents(w) == raw
  {
    var w := Tail(junk + TestEncode(raw));
    assert w == TestEncode(raw);
    forall i | 0 <= i < FRAME_BYTES
      ensures Contents(w)[i] == raw[i]
    {
      ByteInverse(0, raw[i]);
    }
  }

  // One more sample goes by.
  lemma ListenTurn(window: seq<Sample>, samples: seq<Sample>, s: Sample)
    ensures TestListen(window, samples + [s])
         == (TestFeed(TestListen(window, samples).0, s).0,
             TestListen(window, samples).1 + (if TestFeed(TestListen(window, samples).0, s).1.Some?
               then [TestFeed(TestListen(window, samples).0, s).1.value] else []))
  {
    hide TestFeed;
    assert (samples + [s])[..|samples|] == samples;
  }

  lemma FeedTail(junk: seq<Sample>, s: Sample)
    ensures TestFeed(Tail(junk), s)
         == if Framed(Tail(junk + [s])) then ([], Some(Contents(Tail(junk + [s])))) else (Tail(junk + [s]), None)
  {
    hide Framed, Contents, Slide, Tail;
    SlideIsTail(junk, s);
  }

  lemma ListenNothing(window: seq<Sample>)
    requires |window| <= TEST_FRAME_SAMPLES
    ensures TestListen(window, []) == (Tail(window), [])
  {
  }

  lemma {:induction false} SilentUntilTheEnd(window: seq<Sample>, raw: Codec.Raw, k: nat)
    requires |window| <= TEST_FRAME_SAMPLES && |raw| == FRAME_BYTES && k < TEST_FRAME_SAMPLES
    ensures TestListen(window, TestEncode(raw)[..k]) == (Tail(window + TestEncode(raw)[..k]), [])
    decreases k
  {
    hide Framed, Contents, TestEncode, Tail, TestListen, TestFeed;
    var pcm := TestEncode(raw);
    if k == 0 {
      assert window + pcm[..0] == window && pcm[..0] == [];
      ListenNothing(window);
    } else {
      SilentUntilTheEnd(window, raw, k - 1);
      assert pcm[..k] == pcm[..k - 1] + [pcm[k - 1]];
      ListenTurn(window, pcm[..k - 1], pcm[k - 1]);
      FeedTail(window + pcm[..k - 1], pcm[k - 1]);
      assert (window + pcm[..k - 1]) + [pcm[k - 1]] == window + pcm[..k];
      PartIsNoFrame(window, raw, k);
      assert TestListen(window, pcm[..k - 1]).1 + [] == [];
    }
  }

  /** From any state of the test modem, whatever junk is in its window, the 68 samples of an encoded frame produce
      exactly one decode, at the last sample, equal to that frame, and leave the window empty. */
  lemma SelfSynchronisation(window: seq<Sample>, raw: Codec.Raw, k: nat)
    requires |window| <= TEST_FRAME_SAMPLES && |raw| == FRAME_BYTES && k < TEST_FRAME_SAMPLES
    ensures TestListen(window, TestEncode(raw)[..k]).1 == []
    ensures TestListen(window, TestEncode(raw)) == ([], [raw])
  {
    hide Framed, TestEncode, Tail, Contents, TestListen, TestFeed;
    var pcm, n := TestEncode(raw), TEST_FRAME_SAMPLES - 1;
    SilentUntilTheEnd(window, raw, k);
    SilentUntilTheEnd(window, raw, n);
    assert pcm == pcm[..n] + [pcm[n]];
    ListenTurn(window, pcm[..n], pcm[n]);
    FeedTail(window + pcm[..n], pcm[n]);
    assert (window + pcm[..n]) + [pcm[n]] == window + pcm;
    WholeIsFrame(window, raw);
    assert [] + [raw] == [raw];
  }

  /** struct kal_modem with the passthrough backend. */
  class TestModem {
    const window: array<Sample>
    var fill: nat

    ghost predicate Valid()
      reads this, window
    {
      window.Length == TEST_FRAME_SAMPLES && fill <= TEST_FRAME_SAMPLES
    }

    ghost function Window(): (w: seq<Sample>)
      requires Valid()
      reads this, window
    {
      window[..fill]
    }

    constructor ()
      ensures Valid() && fresh(window) && Window() == []
    {
      window := new Sample[68](_ => 0);
      fill := 0;
    }

    /** One call of test_feed, which consumes one sample. */
    method Feed(s: Sample) returns (frame: Option<Codec.Raw>)
      requires Valid()
      modifies this, window
      ensures Valid() && (Window(), frame) == TestFeed(old(Window()), s)
    {
      hide Framed, Contents, Slide;
      Insert(s);
      frame := Extract();
      if frame.Some? {
        fill := 0;
        assert Window() == [];
      }
    }

    /** kal_modem_rx_reset: the window is emptied and wiped. */
    method RxReset()
      requires Valid()
      modifies this, window
      ensures Valid() && Window() == [] && forall i | 0 <= i < window.Length :: window[i] == 0
    {
      fill := 0;
      for i := 0 to window.Length
        invariant fill == 0 && forall j | 0 <= j < i :: window[j] == 0
      {
        window[i] := 0;
      }
    }

    // Push one sample into the window, shifting a full one down first.
    method Insert(s: Sample)
      requires Valid()
      modifies this, window
      ensures Valid() && Window() == Slide(old(Window()), s)
    {
      ghost var before := Window();
      if fill == TEST_FRAME_SAMPLES {
        ShiftDown();
      }
      ghost var kept := Window();
      window[fill] := s;
      assert window[..fill] == kept;
      fill := fill + 1;
      assert window[..fill] == window[..fill - 1] + [s];
    }

    // The frame a full window holds.
    method Extract() returns (frame: Option<Codec.Raw>)
      requires Valid()
      ensures frame == if Framed(Window()) then Some(Contents(Window())) else None
    {
      hide ToByte;
      if fill < TEST_FRAME_SAMPLES {
        return None;
      }
      ghost var w := Window();
      assert window[..SYNC_SAMPLES] == w[..SYNC_SAMPLES];
      if window[..SYNC_SAMPLES] != SYNC {
        return None;
      }
      var raw := [];
      var index := 0;
      while index < FRAME_BYTES
        invariant 0 <= index <= FRAME_BYTES && |raw| == index
        invariant forall i | 0 <= i < index :: IsByte(w, i) && raw[i] == ToByte(w[SYNC_SAMPLES + i])
      {
        var sample := window[SYNC_SAMPLES + index];
        assert sample == w[SYNC_SAMPLES + index];
        if sample < 0 || sample > 255 {
          assert !IsByte(w, index);
          return None;
        }
        raw := raw + [ToByte(sample)];
        index := index + 1;
      }
      assert raw == Contents(w);
      return Some(raw);
    }

    // memmove by one sample
    method ShiftDown()
      requires Valid() && fill == TEST_FRAME_SAMPLES
      modifies this`fill, window
      ensures Valid() && fill == TEST_FRAME_SAMPLES - 1 && Window() == old(Window())[1..]
    {
      var i := 0;
      while i < TEST_FRAME_SAMPLES - 1
        invariant 0 <= i <= TEST_FRAME_SAMPLES - 1
        invariant forall j | 0 <= j < i :: window[j] == old(window[j + 1])
        invariant forall j | i <= j < TEST_FRAME_SAMPLES :: window[j] == old(window[j])
      {
        window[i] := window[i + 1];
        i := i + 1;
      }
      fill := TEST_FRAME_SAMPLES - 1;
    }
  }

  // ------------------------------------------------------------ the chunk accumulator

  /** The receive half of the engine-backed modem: the engine's own state and the samples waiting for a full chunk. */
  datatype Ear<S> = Ear(engine: S, chunk: seq<Sample>)

  // ggwave_ndecode: a step on the engine's state that may complete a frame.
  type Decoder<!S> = (S, seq<Sample>) -> (S, Option<Codec.Raw>)

  /** One sample. */
  function EarFeed<S>(size: nat, decode: Decoder<S>, ear: Ear<S>, s: Sample): (Ear<S>, Option<Codec.Raw>) {
    var chunk := ear.chunk + [s];
    if |chunk| < size then (ear.(chunk := chunk), None)
    else var (engine, frame) := decode(ear.engine, chunk); (Ear(engine, []), frame)
  }

  function Found(frame: Option<Codec.Raw>): seq<Codec.Raw> {
    if frame.Some? then [frame.value] else []
  }

  // A stream of samples, one by one, with the frames it completes.
  function Hears<S>(size: nat, decode: Decoder<S>, ear: Ear<S>, samples: seq<Sample>): (Ear<S>, seq<Codec.Raw>)
    decreases |samples|
  {
    if samples == [] then (ear, [])
    else
      var (next, frame) := EarFeed(size, decode, ear, samples[0]);
      var (last, frames) := Hears(size, decode, next, samples[1..]);
      (last, Found(frame) + frames)
  }

  // The same stream as the engine should see it: whole chunks, end to end, and what is left over.
  function Decodes<S>(size: nat, decode: Decoder<S>, engine: S, samples: seq<Sample>): (Ear<S>, seq<Codec.Raw>)
    requires 0 < size
    decreases |samples|
  {
    if |samples| < size then (Ear(engine, samples), [])
    else
      var (next, frame) := decode(engine, samples[..size]);
      var (last, frames) := Decodes(size, decode, next, samples[size..]);
      (last, Found(frame) + frames)
  }

  /** The engine hears the stream cut into whole chunks: no sample is lost, heard twice, or heard out of order. */
  lemma {:induction false} EngineHearsChunks<S>(size: nat, decode: Decoder<S>, ear: Ear<S>, samples: seq<Sample>)
    requires |ear.chunk| < size
    ensures Hears(size, decode, ear, samples) == Decodes(size, decode, ear.engine, ear.chunk + samples)
    decreases |samples|
  {
    if samples == [] {
      assert ear.chunk + [] == ear.chunk;
    } else {
      var chunk, rest := ear.chunk + [samples[0]], samples[1..];
      assert ear.chunk + samples == chunk + rest;
      if |chunk| < size {
        EngineHearsChunks(size, decode, ear.(chunk := chunk), rest);
        var frames := Hears(size, decode, ear.(chunk := chunk), rest).1;
        assert Found(None) + frames == frames;
      } else {
        assert (chunk + rest)[..size] == chunk && (chunk + rest)[size..] == [] + rest;
        EngineHearsChunks(size, decode, Ear(decode(ear.engine, chunk).0, []), rest);
      }
    }
  }

  class Accumulator<S> {
    const size: nat
    var engine: S
    const chunk: array<Sample>
    var fill: nat

    ghost predicate Valid()
      reads this, chunk
    {
      0 < size == chunk.Length && fill < size
    }

    ghost function State(): Ear<S>
      requires Valid()
      reads this, chunk
    {
      Ear(engine, chunk[..fill])
    }

    constructor (size: nat, engine: S)
      requires 0 < size
      ensures Valid() && fresh(chunk) && this.size == size && State() == Ear(engine, [])
    {
      this.size := size;
      this.engine := engine;
      chunk := new Sample[size](_ => 0);
      fill := 0;
    }

    /** kal_modem_rx_feed: take what the chunk still holds room for, and decode when it is full. */
    method RxFeed(decode: Decoder<S>, pcm: seq<Sample>) returns (consumed: nat, frame: Option<Codec.Raw>)
      requires Valid()
      modifies this, chunk
      ensures Valid() && consumed == (if |pcm| < size - |old(State()).chunk| then |pcm|
        else size - |old(State()).chunk|)
      ensures (State(), frame) == Taken(size, decode, old(State()), pcm[..consumed])
    {
      var take := size - fill;
      if take > |pcm| {
        take := |pcm|;
      }
      ghost var before := chunk[..fill];
      var i := 0;
      while i < take
        invariant 0 <= i <= take && fill == old(fill) && engine == old(engine)
        invariant chunk[..fill] == before && chunk[fill..fill + i] == pcm[..i]
      {
        chunk[fill + i] := pcm[i];
        i := i + 1;
      }
      fill := fill + take;
      consumed := take;
      assert chunk[..fill] == before + pcm[..take];
      if fill < size {
        return consumed, None;
      }
      assert chunk[..] == chunk[..fill];
      fill := 0;
      var (next, decoded) := decode(engine, chunk[..]);
      engine := next;
      frame := decoded;
    }

    /** kal_modem_rx_reset: the partial chunk is dropped and wiped; the engine keeps its state. */
    method RxReset()
      requires Valid()
      modifies this`fill, chunk
      ensures Valid() && State() == old(State()).(chunk := []) && forall i | 0 <= i < chunk.Length :: chunk[i] == 0
    {
      fill := 0;
      for i := 0 to chunk.Length
        invariant fill == 0 && forall j | 0 <= j < i :: chunk[j] == 0
      {
        chunk[i] := 0;
      }
    }
  }

  // What a call that consumes `taken` leaves, when `taken` fills the chunk at most.
  function Taken<S>(size: nat, decode: Decoder<S>, ear: Ear<S>, taken: seq<Sample>): (Ear<S>, Option<Codec.Raw>) {
    var chunk := ear.chunk + taken;
    if |chunk| < size then (ear.(chunk := chunk), None)
    else var (engine, frame) := decode(ear.engine, chunk); (Ear(engine, []), frame)
  }
}
