/**
  SHA-256: the standard (FIPS 180-4, sections 5.1.1 and 6.2.2) as functions, and the byte-buffered
  streaming implementation of src/kal_sha256.c proved against them.
 */
module Sha256 {
  import opened Bytes

  function Constants(): (k: seq<bv32>)
    ensures |k| == 64
  {
    EarlyConstants() + LateConstants()
  }

  function EarlyConstants(): (k: seq<bv32>)
    ensures |k| == 32
  {
    [0x428a2f98, 0x71374491, 0xb5c0fbcf, 0xe9b5dba5, 0x3956c25b, 0x59f111f1, 0x923f82a4, 0xab1c5ed5]
      + [0xd807aa98, 0x12835b01, 0x243185be, 0x550c7dc3, 0x72be5d74, 0x80deb1fe, 0x9bdc06a7, 0xc19bf174]
      + [0xe49b69c1, 0xefbe4786, 0x0fc19dc6, 0x240ca1cc, 0x2de92c6f, 0x4a7484aa, 0x5cb0a9dc, 0x76f988da]
      + [0x983e5152, 0xa831c66d, 0xb00327c8, 0xbf597fc7, 0xc6e00bf3, 0xd5a79147, 0x06ca6351, 0x14292967]
  }

  function LateConstants(): (k: seq<bv32>)
    ensures |k| == 32
  {
    [0x27b70a85, 0x2e1b2138, 0x4d2c6dfc, 0x53380d13, 0x650a7354, 0x766a0abb, 0x81c2c92e, 0x92722c85]
      + [0xa2bfe8a1, 0xa81a664b, 0xc24b8b70, 0xc76c51a3, 0xd192e819, 0xd6990624, 0xf40e3585, 0x106aa070]
      + [0x19a4c116, 0x1e376c08, 0x2748774c, 0x34b0bcb5, 0x391c0cb3, 0x4ed8aa4a, 0x5b9cca4f, 0x682e6ff3]
      + [0x748f82ee, 0x78a5636f, 0x84c87814, 0x8cc70208, 0x90befffa, 0xa4506ceb, 0xbef9a3f7, 0xc67178f2]
  }

  function Initial(): (h: seq<bv32>)
    ensures |h| == 8
  {
   [0x6a09e667, 0xbb67ae85, 0x3c6ef372, 0xa54ff53a,
    0x510e527f, 0x9b05688c, 0x1f83d9ab, 0x5be0cd19]
  }

  const TWO61 := 0x2000_0000_0000_0000
  const TWO64 := 0x1_0000_0000_0000_0000

  // ------------------------------------------------------------ the standard

  function RotateRight(value: bv32, count: bv6): bv32
    requires 0 < count < 32
  {
    (value >> count) | (value << (32 - count))
  }

  // Addition modulo 2^32; a function of its own so that proofs can treat it as a symbol.
  function Add(x: bv32, y: bv32): bv32 { x + y }

  function SmallSigma0(x: bv32): bv32 { RotateRight(x, 7) ^ RotateRight(x, 18) ^ (x >> 3) }
  function SmallSigma1(x: bv32): bv32 { RotateRight(x, 17) ^ RotateRight(x, 19) ^ (x >> 10) }
  function BigSigma0(x: bv32): bv32 { RotateRight(x, 2) ^ RotateRight(x, 13) ^ RotateRight(x, 22) }
  function BigSigma1(x: bv32): bv32 { RotateRight(x, 6) ^ RotateRight(x, 11) ^ RotateRight(x, 25) }
  function Choice(x: bv32, y: bv32, z: bv32): bv32 { (x & y) ^ ((!x) & z) }
  function Majority(x: bv32, y: bv32, z: bv32): bv32 { (x & y) ^ (x & z) ^ (y & z) }

  // The message schedule W_t.
  function Schedule(block: seq<byte>, t: nat): bv32
    requires |block| == 64 && t < 64
    decreases t, |block|
  {
    if t < 16 then GetWord(block[4 * t..4 * t + 4])
    else NextWord(Schedule(block, t - 16), Schedule(block, t - 15), Schedule(block, t - 7), Schedule(block, t - 2))
  }

  // The sum of section 6.2.2, step 1; the order of the four terms does not matter modulo 2^32.
  function NextWord(w16: bv32, w15: bv32, w7: bv32, w2: bv32): bv32 {
    Add(Add(Add(w16, SmallSigma0(w15)), w7), SmallSigma1(w2))
  }

  lemma ScheduleTurn(block: seq<byte>, t: nat)
    requires |block| == 64 && t < 64
    ensures Schedule(block, t) ==
            if t < 16 then GetWord(block[4 * t..4 * t + 4])
            else NextWord(Schedule(block, t - 16), Schedule(block, t - 15), Schedule(block, t - 7),
              Schedule(block, t - 2))
  {
    hide NextWord, GetWord;
  }

  datatype Working = Working(a: bv32, b: bv32, c: bv32, d: bv32, e: bv32, f: bv32, g: bv32, h: bv32)

  function Round(v: Working, k: bv32, w: bv32): Working {
    var t1 := Add(Add(Add(Add(v.h, BigSigma1(v.e)), Choice(v.e, v.f, v.g)), k), w);
    var t2 := Add(BigSigma0(v.a), Majority(v.a, v.b, v.c));
    Working(Add(t1, t2), v.a, v.b, v.c, Add(v.d, t1), v.e, v.f, v.g)
  }

  // The variables after t rounds, and after the round that follows them.
  function Rounds(v: Working, block: seq<byte>, t: nat): Working
    requires |block| == 64 && t <= 64
    decreases t, 0, |block|
  {
    if t == 0 then v else Turn(v, block, t - 1)
  }

  function Turn(v: Working, block: seq<byte>, t: nat): Working
    requires |block| == 64 && t < 64
    decreases t, 1, |block|
  {
    Round(Rounds(v, block, t), Constants()[t], Schedule(block, t))
  }

  function Compress(h: seq<bv32>, block: seq<byte>): (r: seq<bv32>)
    requires |h| == 8 && |block| == 64
    ensures |r| == 8
  {
    hide Rounds, Sum;
    Sum(h, Rounds(Working(h[0], h[1], h[2], h[3], h[4], h[5], h[6], h[7]), block, 64))
  }

  function Sum(h: seq<bv32>, v: Working): (r: seq<bv32>)
    requires |h| == 8
    ensures |r| == 8
  {
    [Add(h[0], v.a), Add(h[1], v.b), Add(h[2], v.c), Add(h[3], v.d), Add(h[4], v.e), Add(h[5], v.f), Add(h[6], v.g),
      Add(h[7], v.h)]
  }

  lemma SumOf(h: seq<bv32>, v: Working, r: seq<bv32>)
    requires |h| == |r| == 8
    requires r[0] == Add(h[0], v.a) && r[1] == Add(h[1], v.b) && r[2] == Add(h[2], v.c) && r[3] == Add(h[3], v.d)
    requires r[4] == Add(h[4], v.e) && r[5] == Add(h[5], v.f) && r[6] == Add(h[6], v.g) && r[7] == Add(h[7], v.h)
    ensures r == Sum(h, v)
  {
    hide Add;
  }

  lemma FoldNothing(h: seq<bv32>)
    requires |h| == 8
    ensures Fold(h, []) == h
  {
  }

  lemma WholeBlocks(n: nat)
    ensures n % 64 == 0 && n > 0 ==> n >= 64 && (n - 64) % 64 == 0
  {
  }

  lemma NextLength(n: nat)
    ensures (n + 1) % 64 == if n % 64 == 63 then 0 else n % 64 + 1
    ensures (n + 1) % TWO64 == (n % TWO64 + 1) % TWO64
  {
  }

  lemma PaddedLength(n: nat)
    ensures var r := Modulo(n, 64); r < 64 && (n + 1 + Modulo(119 - r, 64) + 8) % 64 == 0
  {
    Division(n, 64);
    var r := n % 64;
    Division(119 - r, 64);
    assert (119 - r) % 64 == if r <= 55 then 55 - r else 119 - r;
  }

  function Fold(h: seq<bv32>, blocks: seq<byte>): (r: seq<bv32>)
    requires |h| == 8 && |blocks| % 64 == 0
    ensures |r| == 8
    decreases |blocks|
  {
    if blocks == [] then h else
      WholeBlocks(|blocks|);
      Fold(Compress(h, blocks[..64]), blocks[64..])
  }

  // The shift of an integer by that many bytes.
  function Shifted(n: nat, bytes: nat): nat
    decreases bytes, n
  {
    if bytes == 0 then n else Shifted(Quotient(n, 256), bytes - 1)
  }

  // Byte i of a 64-bit big-endian integer: the shift by 8 * (7 - i) and the cast to eight bits.
  function LengthByte(n: nat, i: nat): byte
    requires i < 8
  {
    Division(Shifted(n, 7 - i), 256);
    ToByte(Modulo(Shifted(n, 7 - i), 256))
  }

  function BigEndian64(n: nat): (s: seq<byte>)
    ensures |s| == 8
  {
    seq(8, i requires 0 <= i < 8 => LengthByte(n, i))
  }

  function Zeros(n: nat): (z: seq<byte>)
    ensures |z| == n
  {
    seq(n, _ => 0)
  }

  // Section 5.1.1: one 1-bit, the fewest 0-bits that leave 64 bits in the block, the length in bits.
  function Pad(message: seq<byte>): (padded: seq<byte>)
    ensures |padded| % 64 == 0
  {
    PaddedLength(|message|);
    var k := Modulo(119 - Modulo(|message|, 64), 64);
    message + [0x80] + Zeros(k) + BigEndian64(8 * |message|)
  }

  function Serialize(h: seq<bv32>): (s: seq<byte>)
    ensures |s| == 4 * |h|
  {
    if h == [] then [] else PutWord(h[0]) + Serialize(h[1..])
  }

  function Digest(message: seq<byte>): (digest: seq<byte>)
    ensures |digest| == 32
  {
    Serialize(Fold(Initial(), Pad(message)))
  }

  lemma {:induction false} FoldAppend(h: seq<bv32>, a: seq<byte>, b: seq<byte>)
    requires |h| == 8 && |a| % 64 == 0 && |b| % 64 == 0
    ensures Fold(h, a + b) == Fold(Fold(h, a), b)
    decreases |a|
  {
    hide Compress;
    if a == [] {
      assert a + b == b;
    } else {
      assert (a + b)[..64] == a[..64] && (a + b)[64..] == a[64..] + b;
      FoldAppend(Compress(h, a[..64]), a[64..], b);
    }
  }

  lemma FoldOne(h: seq<bv32>, block: seq<byte>)
    requires |h| == 8 && |block| == 64
    ensures Fold(h, block) == Compress(h, block)
  {
    hide Compress, Initial;
    assert block[..64] == block && block[64..] == [];
  }

  // What follows the whole blocks of a message, up to the length field.
  function Terminated(tail: seq<byte>): seq<byte>
    requires |tail| < 64
  {
    if |tail| <= 55 then tail + [0x80] + Zeros(55 - |tail|) else tail + [0x80] + Zeros(63 - |tail|) + Zeros(56)
  }

  // The padded message, cut where sha256_final cuts it.
  lemma PadSplits(done: seq<byte>, tail: seq<byte>)
    requires |done| % 64 == 0 && |tail| < 64
    ensures var message := done + tail; Pad(message) == done + Terminated(tail) + BigEndian64(8 * |message|)
  {
    hide BigEndian64;
    var r := |tail|;
    assert |done + tail| % 64 == r;
    Division(|done + tail|, 64);
    Division(119 - r, 64);
    assert (119 - r) % 64 == if r <= 55 then 55 - r else 119 - r;
    if r > 55 { assert Zeros(119 - r) == Zeros(63 - r) + Zeros(56); }
  }

  // ------------------------------------------------------------ the implementation

  /** struct sha256_context; `compressed` is what has left the block buffer since construction. */
  class Context {
    const state: array<bv32>
    const block: array<byte>
    var blockLength: nat
    var totalBytes: nat
    ghost var compressed: seq<byte>

    ghost predicate Valid()
      reads this, state, block
    {
      && state.Length == 8 && block.Length == 64 && blockLength < 64
      && |compressed| % 64 == 0
      && state[..] == Fold(Initial(), compressed)
      && totalBytes == (|compressed| + blockLength) % TWO64
    }

    // Everything absorbed so far.
    ghost function Absorbed(): seq<byte>
      requires Valid()
      reads this, state, block
    {
      compressed + block[..blockLength]
    }

    /** sha256_init */
    constructor ()
      ensures Valid() && fresh(state) && fresh(block) && Absorbed() == []
    {
      hide Initial, Compress, Fold;
      state := new bv32[8](i requires 0 <= i < 8 => Initial()[i]);
      block := new byte[64](_ => 0);
      blockLength := 0;
      totalBytes := 0;
      compressed := [];
      new;
      assert state[..] == Initial();
      FoldNothing(Initial());
    }

    /** The message schedule loops of sha256_transform. */
    method Expand() returns (words: array<bv32>)
      requires block.Length == 64
      ensures fresh(words) && words.Length == 64
      ensures forall t | 0 <= t < 64 :: words[t] == Schedule(block[..], t)
    {
      hide SmallSigma0, SmallSigma1, Add, GetWord, Schedule;
      words := new bv32[64](_ => 0);
      var index := 0;
      while index < 16
        invariant 0 <= index <= 16
        invariant forall t | 0 <= t < index :: words[t] == Schedule(block[..], t)
      {
        words[index] := GetWord(block[4 * index..4 * index + 4]);
        assert block[..][4 * index..4 * index + 4] == block[4 * index..4 * index + 4];
        ScheduleTurn(block[..], index);
        index := index + 1;
      }
      while index < 64
        invariant 16 <= index <= 64
        invariant forall t | 0 <= t < index :: words[t] == Schedule(block[..], t)
      {
        var x, y := words[index - 15], words[index - 2];
        var sigma0 := SmallSigma0(x);
        var sigma1 := SmallSigma1(y);
        words[index] := Add(Add(Add(words[index - 16], sigma0), words[index - 7]), sigma1);
        ScheduleTurn(block[..], index);
        index := index + 1;
      }
    }

    /** sha256_transform */
    method Transform()
      requires state.Length == 8 && block.Length == 64
      modifies state
      ensures state[..] == Compress(old(state[..]), block[..])
    {
      hide Schedule, Sum, Constants, BigSigma0, BigSigma1, Choice, Majority, Add;
      var words := Expand();
      var a, b, c, d, e, f, g, h := state[0], state[1], state[2], state[3], state[4], state[5], state[6], state[7];
      ghost var start := Working(a, b, c, d, e, f, g, h);
      var index := 0;
      while index < 64
        invariant 0 <= index <= 64
        invariant Working(a, b, c, d, e, f, g, h) == Rounds(start, block[..], index)
      {
        var temporary1 := Add(Add(Add(Add(h, BigSigma1(e)), Choice(e, f, g)), Constants()[index]), words[index]);
        var temporary2 := Add(BigSigma0(a), Majority(a, b, c));
        h := g;
        g := f;
        f := e;
        e := Add(d, temporary1);
        d := c;
        c := b;
        b := a;
        a := Add(temporary1, temporary2);
        index := index + 1;
      }
      AddInto(Working(a, b, c, d, e, f, g, h));
    }

    method AddInto(v: Working)
      requires state.Length == 8
      modifies state
      ensures state[..] == Sum(old(state[..]), v)
    {
      hide Add, Sum;
      ghost var h := state[..];
      state[0], state[1], state[2], state[3] := Add(state[0], v.a), Add(state[1], v.b), Add(state[2], v.c),
        Add(state[3], v.d);
      state[4], state[5], state[6], state[7] := Add(state[4], v.e), Add(state[5], v.f), Add(state[6], v.g),
        Add(state[7], v.h);
      SumOf(h, v, state[..]);
    }

    /** One iteration of sha256_update. */
    method Absorb(b: byte)
      requires Valid()
      modifies this, state, block
      ensures Valid() && Absorbed() == old(Absorbed()) + [b]
    {
      hide Compress, Fold, Initial;
      NextLength(|compressed| + blockLength);
      block[blockLength] := b;
      blockLength := blockLength + 1;
      totalBytes := (totalBytes + 1) % TWO64;
      assert compressed + block[..blockLength] == old(compressed + block[..blockLength]) + [b];
      if blockLength == 64 {
        BlockDone();
      }
    }

    // sha256_transform on a full buffer.
    method BlockDone()
      requires state.Length == 8 && block.Length == 64 && |compressed| % 64 == 0
      requires state[..] == Fold(Initial(), compressed)
      modifies state, this`blockLength, this`compressed
      ensures blockLength == 0 && compressed == old(compressed) + block[..64]
      ensures |compressed| % 64 == 0 && state[..] == Fold(Initial(), compressed)
    {
      hide Compress, Fold, Initial;
      assert block[..] == block[..64];
      FoldAppend(Initial(), compressed, block[..]);
      FoldOne(Fold(Initial(), compressed), block[..]);
      Transform();
      blockLength := 0;
      compressed := compressed + block[..64];
    }

    /** sha256_update: what matters is only what was absorbed, not how it was split into calls. */
    method Update(input: seq<byte>)
      requires Valid()
      modifies this, state, block
      ensures Valid() && Absorbed() == old(Absorbed()) + input
    {
      hide Valid, Fold;
      var index := 0;
      while index < |input|
        invariant 0 <= index <= |input|
        invariant Valid() && Absorbed() == old(Absorbed()) + input[..index]
      {
        Absorb(input[index]);
        index := index + 1;
      }
    }

    method ZeroFill(limit: nat)
      requires block.Length == 64 && blockLength <= limit <= 64
      modifies this`blockLength, block
      ensures blockLength == limit
      ensures block[..limit] == old(block[..blockLength]) + Zeros(limit - old(blockLength))
    {
      while blockLength < limit
        invariant old(blockLength) <= blockLength <= limit
        invariant block[..blockLength] == old(block[..blockLength]) + Zeros(blockLength - old(blockLength))
      {
        block[blockLength] := 0;
        blockLength := blockLength + 1;
        assert block[..blockLength] == block[..blockLength - 1] + [0];
      }
    }

    // The terminator and zeros up to the length field, in a second block when the first has no room for it.
    method Terminate()
      requires Valid()
      modifies this, state, block
      ensures blockLength == 56 && |compressed| % 64 == 0 && state[..] == Fold(Initial(), compressed)
      ensures compressed + block[..56] == old(compressed) + Terminated(old(block[..blockLength]))
    {
      hide Compress, Fold, Initial;
      ghost var tail := block[..blockLength];
      block[blockLength] := 0x80;
      blockLength := blockLength + 1;
      assert block[..blockLength] == tail + [0x80];
      if blockLength > 56 {
        ZeroFill(64);
        BlockDone();
      }
      ZeroFill(56);
    }

    /** sha256_final, with a second block when fewer than eight bytes are left for the length. */
    method Final() returns (output: seq<byte>)
      requires Valid() && |Absorbed()| < TWO61
      modifies this, state, block
      ensures output == Digest(old(Absorbed()))
    {
      hide Compress, Fold, BigEndian64, Initial, Pad, Terminated;
      ghost var message := Absorbed();
      PadSplits(compressed, block[..blockLength]);
      var bitLength := (totalBytes * 8) % TWO64;
      Terminate();
      PutLength(bitLength);
      BlockDone();
      assert compressed == Pad(message);
      output := WriteState();
    }

    method PutLength(bitLength: nat)
      requires block.Length == 64
      modifies block
      ensures block[..64] == old(block[..56]) + BigEndian64(bitLength)
    {
      hide LengthByte;
      var index := 0;
      while index < 8
        invariant 0 <= index <= 8
        invariant forall i | 0 <= i < 56 :: block[i] == old(block[i])
        invariant forall i | 0 <= i < index :: block[56 + i] == LengthByte(bitLength, i)
      {
        block[56 + index] := LengthByte(bitLength, index);
        index := index + 1;
      }
    }

    method WriteState() returns (output: seq<byte>)
      requires state.Length == 8
      ensures output == Serialize(state[..])
    {
      hide PutWord;
      output := [];
      var index := 0;
      while index < 8
        invariant 0 <= index <= 8
        invariant output + Serialize(state[index..]) == Serialize(state[..])
      {
        output := output + PutWord(state[index]);
        assert state[index..][1..] == state[index + 1..];
        index := index + 1;
      }
    }
  }

  /** kal_sha256 */
  method Hash(input: seq<byte>) returns (output: seq<byte>)
    requires |input| < TWO61
    ensures output == Digest(input)
  {
    hide Digest, Fold, Initial;
    var context := new Context();
    context.Update(input);
    assert [] + input == input;
    output := context.Final();
  }

  /** kal_digest_equal: constant-time comparison is equality. */
  method DigestEqual(left: seq<byte>, right: seq<byte>) returns (equal: bool)
    requires |left| == |right| == 32
    ensures equal <==> left == right
  {
    var difference: byte := 0;
    var index := 0;
    while index < 32
      invariant 0 <= index <= 32
      invariant difference == 0 <==> left[..index] == right[..index]
    {
      NoDifference(difference, left[index], right[index]);
      difference := difference | (left[index] ^ right[index]);
      assert left[..index + 1] == left[..index] + [left[index]];
      assert right[..index + 1] == right[..index] + [right[index]];
      index := index + 1;
    }
    return difference == 0;
  }

  lemma NoDifference(d: byte, a: byte, b: byte)
    ensures d | (a ^ b) == 0 <==> d == 0 && a == b
  {
  }
}
