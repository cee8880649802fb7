/**
  CRC-32C (components/kilix-acoustic-link/src/kal_frame.c, kal_crc32c): the table-free reflected
  algorithm, the long-division reference of section 12.1 of RFC 3720, and what the checksum detects.
 */
module Crc32c {

  type byte = bv8

  // The Castagnoli polynomial in the reflected spelling used by the code...
  const POLYNOMIAL: bv32 := 0x82f63b78
  // ...and the coefficients of x^31 .. x^0 in the spelling of RFC 3720 (0x11EDC6F41 without x^32).
  const GENERATOR: seq<bool> := [
    false, false, false, true,   true, true, true, false,
    true, true, false, true,     true, true, false, false,
    false, true, true, false,    true, true, true, true,
    false, true, false, false,   false, false, false, true]

  // The three word operations everything below is built from. Proofs hide their definitions.
  function Half(w: bv32): bv32 { w >> 1 }
  function Low(w: bv32): bool { w & 1 == 1 }
  function Xor(x: bv32, y: bv32): bv32 { x ^ y }

  // ------------------------------------------------------------ the algorithm

  function BitStep(crc: bv32): bv32 {
    if Low(crc) then Xor(Half(crc), POLYNOMIAL) else Half(crc)
  }

  function Steps(crc: bv32, n: nat): bv32
    decreases n, crc
  {
    if n == 0 then crc else Steps(BitStep(crc), n - 1)
  }

  function Word(b: byte): bv32 { b as bv32 }

  function Feed(crc: bv32, data: seq<byte>): bv32
    decreases |data|, 0
  {
    if data == [] then crc else FeedNext(crc, data)
  }

  function FeedNext(crc: bv32, data: seq<byte>): bv32
    requires data != []
    decreases |data| - 1, 1
  {
    Feed(Steps(Xor(crc, Word(data[0])), 8), data[1..])
  }

  function Crc(data: seq<byte>): bv32 {
    Xor(Feed(0xffffffff, data), 0xffffffff)
  }

  // Negating the low bit gives a mask of all ones or all zeros.
  lemma MaskOfBit(bit: bv32)
    requires bit == 0 || bit == 1
    ensures POLYNOMIAL & (0 - bit) == if bit == 1 then POLYNOMIAL else 0
  {
  }

  lemma LowBit(crc: bv32)
    ensures crc & 1 == if Low(crc) then 1 else 0
  {
  }

  lemma XorZero(x: bv32)
    ensures x ^ 0 == x
  {
  }

  lemma MaskedStep(crc: bv32)
    ensures BitStep(crc) == (crc >> 1) ^ (POLYNOMIAL & (0 - (crc & 1)))
  {
    LowBit(crc);
    MaskOfBit(crc & 1);
    XorZero(crc >> 1);
    hide Low;
  }

  lemma {:induction false} StepLast(crc: bv32, n: nat)
    ensures BitStep(Steps(crc, n)) == Steps(crc, n + 1)
    decreases n
  {
    hide BitStep;
    if n > 0 { StepLast(BitStep(crc), n - 1); }
  }

  /** kal_crc32c: two nested loops with the branch-free mask. */
  method Checksum(data: seq<byte>) returns (crc: bv32)
    ensures crc == Crc(data)
  {
    hide Xor, Word, Steps;
    crc := 0xffffffff;
    var index := 0;
    while index < |data|
      invariant 0 <= index <= |data|
      invariant Feed(0xffffffff, data) == Feed(crc, data[index..])
    {
      crc := MixIn(crc, data[index]);
      assert data[index..][1..] == data[index + 1..];
      index := index + 1;
    }
    crc := Xor(crc, 0xffffffff);
  }

  method MixIn(before: bv32, b: byte) returns (crc: bv32)
    ensures crc == Steps(Xor(before, Word(b)), 8)
  {
    crc := before ^ (b as bv32);
    ghost var start := crc;
    hide BitStep, Xor, Word;
    var bit := 0;
    while bit < 8
      invariant 0 <= bit <= 8
      invariant crc == Steps(start, bit)
    {
      MaskedStep(crc);
      StepLast(start, bit);
      var mask: bv32 := 0 - (crc & 1);
      crc := (crc >> 1) ^ (POLYNOMIAL & mask);
      bit := bit + 1;
    }
  }

  // ------------------------------------------------------------ RFC 3720 reference

  // Polynomials over GF(2) are coefficient sequences, highest power first.

  function XorPrefix(p: seq<bool>, q: seq<bool>): (r: seq<bool>)
    requires |q| <= |p|
    ensures |r| == |p|
  {
    seq(|p|, i requires 0 <= i < |p| => if i < |q| then p[i] != q[i] else p[i])
  }

  // Long division by x^32 + GENERATOR.
  function Remainder(p: seq<bool>): seq<bool>
    decreases |p|
  {
    if |p| <= 32 then p
    else if p[0] then Remainder(XorPrefix(p[1..], GENERATOR))
    else Remainder(p[1..])
  }

  function Zeros(n: nat): (r: seq<bool>)
    ensures |r| == n
  {
    seq(n, _ => false)
  }

  function Bit(w: bv32, i: nat): bool
    decreases i
  {
    if i == 0 then Low(w) else Bit(Half(w), i - 1)
  }

  // The register as a polynomial: the reflected algorithm keeps x^31 in the least significant bit.
  function Bits(w: bv32): (r: seq<bool>)
    ensures |r| == 32
  {
    seq(32, i requires 0 <= i < 32 => Bit(w, i))
  }

  // Bytes enter the dividend least significant bit first.
  function LowBits(w: bv32, n: nat): (r: seq<bool>)
    ensures |r| == n
    decreases n
  {
    if n == 0 then [] else [Low(w)] + LowBits(Half(w), n - 1)
  }

  function MessageBits(data: seq<byte>): (r: seq<bool>)
    ensures |r| == 8 * |data|
  {
    if data == [] then [] else LowBits(Word(data[0]), 8) + MessageBits(data[1..])
  }

  function Complement(p: seq<bool>): (r: seq<bool>)
    ensures |r| == |p|
  {
    seq(|p|, i requires 0 <= i < |p| => !p[i])
  }

  /** The checksum of RFC 3720: complement the first 32 bits of M(x) * x^32, divide, complement the remainder. */
  function Reference(data: seq<byte>): seq<bool> {
    Complement(Remainder(XorPrefix(MessageBits(data) + Zeros(32), Complement(Zeros(32)))))
  }

  lemma XorFacts(x: bv32, y: bv32)
    ensures Low(Xor(x, y)) == (Low(x) != Low(y))
    ensures Half(Xor(x, y)) == Xor(Half(x), Half(y))
  {
  }

  lemma {:induction false} BitXor(x: bv32, y: bv32, i: nat)
    ensures Bit(Xor(x, y), i) == (Bit(x, i) != Bit(y, i))
    decreases i
  {
    hide Half, Low, Xor;
    XorFacts(x, y);
    if i > 0 { BitXor(Half(x), Half(y), i - 1); }
  }

  function NextByte(w: bv32): bv32 { w >> 8 }

  lemma EightHalves(w: bv32)
    ensures Half(Half(Half(Half(Half(Half(Half(Half(w)))))))) == NextByte(w)
  {
  }

  lemma BitNextByte(w: bv32, i: nat)
    requires 8 <= i
    ensures Bit(w, i) == Bit(NextByte(w), i - 8)
  {
    EightHalves(w);
    hide Half, Low, NextByte;
    var w2 := Half(Half(w));
    var w4 := Half(Half(w2));
    var w6 := Half(Half(w4));
    assert Bit(w, i) == Bit(w2, i - 2) == Bit(w4, i - 4);
    assert Bit(w4, i - 4) == Bit(w6, i - 6) == Bit(Half(Half(w6)), i - 8);
  }

  // Bit(w, i) for the lowest byte, spelled with masks.
  predicate Masked(w: bv32, i: nat)
    requires i < 8
  {
    if i == 0 then w & 1 == 1 else if i == 1 then w & 2 == 2 else if i == 2 then w & 4 == 4
      else if i == 3 then w & 8 == 8
    else if i == 4 then w & 16 == 16 else if i == 5 then w & 32 == 32 else if i == 6 then w & 64 == 64
      else w & 128 == 128
  }

  lemma SmallBit(w: bv32, i: nat)
    requires i < 8
    ensures Bit(w, i) == Masked(w, i)
    decreases i
  {
  }

  lemma TopByteClear(w: bv32)
    ensures !Masked(NextByte(NextByte(NextByte(Half(w)))), 7)
  {
  }

  lemma TopBitClear(w: bv32)
    ensures !Bit(Half(w), 31)
  {
    TopByteClear(w);
    hide Half, Low, NextByte, Masked;
    var h := Half(w);
    BitNextByte(h, 31);
    BitNextByte(NextByte(h), 23);
    BitNextByte(NextByte(NextByte(h)), 15);
    SmallBit(NextByte(NextByte(NextByte(h))), 7);
  }

  lemma BitsByBytes(w: bv32, i: nat)
    requires i < 32
    ensures Bit(w, i) ==
            if i < 8 then Masked(w, i) else if i < 16 then Masked(NextByte(w), i - 8)
            else if i < 24 then Masked(NextByte(NextByte(w)), i - 16)
              else Masked(NextByte(NextByte(NextByte(w))), i - 24)
  {
    hide Half, Low, NextByte, Masked;
    var w1 := NextByte(w);
    var w2 := NextByte(w1);
    if 8 <= i { BitNextByte(w, i); }
    if 16 <= i { BitNextByte(w1, i - 8); }
    if 24 <= i { BitNextByte(w2, i - 16); }
    SmallBit(if i < 8 then w else if i < 16 then w1 else if i < 24 then w2 else NextByte(w2), i % 8);
  }

  // The two spellings of the polynomial agree.
  lemma PolynomialIsGenerator()
    ensures Bits(POLYNOMIAL) == GENERATOR
  {
    forall i | 0 <= i < 32
      ensures Bit(POLYNOMIAL, i) == GENERATOR[i]
    {
      BitsByBytes(POLYNOMIAL, i);
      hide Bit;
    }
  }

  // One register step is one step of long division on the dividend it stands for.
  lemma StepBits(w: bv32)
    ensures Bits(BitStep(w)) ==
            var shifted := Bits(w)[1..] + [false];
            if Bits(w)[0] then XorPrefix(shifted, GENERATOR) else shifted
  {
    TopBitClear(w);
    PolynomialIsGenerator();
    hide Half, Low, Xor;
    forall i | 0 <= i < 32
      ensures Bit(BitStep(w), i) == ((if i < 31 then Bit(w, i + 1) else false) != (Low(w) && GENERATOR[i]))
    {
      BitXor(Half(w), POLYNOMIAL, i);
      assert Bits(POLYNOMIAL)[i] == Bit(POLYNOMIAL, i);
    }
  }

  lemma DivisionStep(w: bv32, m: seq<bool>)
    requires 0 < |m|
    ensures |XorPrefix(m + Zeros(32), Bits(w))| > 32
    ensures Remainder(XorPrefix(m + Zeros(32), Bits(w)))
         == Remainder(XorPrefix(m[1..] + Zeros(32), Bits(BitStep(if m[0] then Xor(w, 1) else w))))
  {
    var v := if m[0] then Xor(w, 1) else w;
    FlipLow(w);
    StepBits(v);
    hide Half, Low, Xor, BitStep, Bit;
    var p := XorPrefix(m + Zeros(32), Bits(w));
    var shifted := Bits(v)[1..] + [false];
    assert p[0] == Bits(v)[0];
    assert p[1..] == XorPrefix(m[1..] + Zeros(32), shifted);
    if p[0] {
      assert XorPrefix(p[1..], GENERATOR) == XorPrefix(m[1..] + Zeros(32), XorPrefix(shifted, GENERATOR));
    }
  }

  lemma FlipLow(w: bv32)
    ensures Bits(Xor(w, 1))[0] == !Bits(w)[0]
    ensures Bits(Xor(w, 1))[1..] == Bits(w)[1..]
  {
    OneHasOneBit();
    forall i | 0 <= i < 32
      ensures Bit(Xor(w, 1), i) == (Bit(w, i) != (i == 0))
    {
      BitXor(w, 1, i);
      ZeroBits(i);
    }
  }

  lemma OneHasOneBit()
    ensures Half(1) == 0 && Half(0) == 0 && Low(1) && !Low(0)
  {
  }

  lemma {:induction false} ZeroBits(i: nat)
    ensures !Bit(0, i) && Bit(1, i) == (i == 0)
    decreases i
  {
    OneHasOneBit();
    hide Half, Low;
    if i > 0 { ZeroBits(i - 1); }
  }

  // The register fed one message bit at a time.
  function FeedBits(w: bv32, m: seq<bool>): bv32
    decreases |m|
  {
    if m == [] then w else FeedBits(BitStep(if m[0] then Xor(w, 1) else w), m[1..])
  }

  lemma {:induction false} DivisionByRegister(w: bv32, m: seq<bool>)
    ensures Remainder(XorPrefix(m + Zeros(32), Bits(w))) == Bits(FeedBits(w, m))
    decreases |m|
  {
    hide Low, Half, Xor, BitStep, Bit;
    if m == [] {
      assert XorPrefix(m + Zeros(32), Bits(w)) == Bits(w);
    } else {
      DivisionStep(w, m);
      DivisionByRegister(BitStep(if m[0] then Xor(w, 1) else w), m[1..]);
    }
  }

  lemma XorAlgebra(x: bv32, y: bv32, z: bv32)
    ensures Xor(Xor(x, y), z) == Xor(Xor(x, z), y)
    ensures Half(Xor(x, 1)) == Half(x)
  {
  }

  // Xoring a whole byte in before eight steps is xoring one bit in before each of them.
  lemma BitAtATime(w: bv32, x: bv32)
    ensures BitStep(Xor(w, x)) == Xor(BitStep(if Low(x) then Xor(w, 1) else w), Half(x))
  {
    XorFacts(w, x);
    XorFacts(w, 1);
    OneHasOneBit();
    XorAlgebra(Half(w), Half(x), POLYNOMIAL);
    XorAlgebra(w, 0, 0);
    hide Low, Half, Xor;
  }

  lemma {:induction false} StepsAreBits(w: bv32, x: bv32, n: nat)
    ensures Steps(Xor(w, x), n) == Xor(FeedBits(w, LowBits(x, n)), Shifted(x, n))
    decreases n
  {
    BitAtATime(w, x);
    hide Low, Half, Xor, BitStep;
    if n > 0 {
      assert LowBits(x, n)[1..] == LowBits(Half(x), n - 1);
      StepsAreBits(BitStep(if Low(x) then Xor(w, 1) else w), Half(x), n - 1);
    }
  }

  function Shifted(w: bv32, n: nat): bv32
    decreases n
  {
    if n == 0 then w else Shifted(Half(w), n - 1)
  }

  lemma WordIsShort(b: byte, w: bv32)
    ensures Xor(w, Shifted(Word(b), 8)) == w
  {
    ShiftedByte(Word(b));
    ShortWord(b, w);
  }

  lemma ShortWord(b: byte, w: bv32)
    ensures Xor(w, NextByte(Word(b))) == w
  {
  }

  lemma {:induction false} FeedBitsAppend(w: bv32, a: seq<bool>, b: seq<bool>)
    ensures FeedBits(w, a + b) == FeedBits(FeedBits(w, a), b)
    decreases |a|
  {
    hide Low, Half, Xor, BitStep;
    if a == [] {
      assert a + b == b;
    } else {
      assert (a + b)[1..] == a[1..] + b;
      FeedBitsAppend(BitStep(if a[0] then Xor(w, 1) else w), a[1..], b);
    }
  }

  lemma {:induction false} FeedIsFeedBits(crc: bv32, data: seq<byte>)
    ensures Feed(crc, data) == FeedBits(crc, MessageBits(data))
    decreases |data|
  {
    hide Low, Half, Xor, BitStep, Word;
    if data != [] {
      StepsAreBits(crc, Word(data[0]), 8);
      WordIsShort(data[0], FeedBits(crc, LowBits(Word(data[0]), 8)));
      FeedBitsAppend(crc, LowBits(Word(data[0]), 8), MessageBits(data[1..]));
      FeedIsFeedBits(Steps(Xor(crc, Word(data[0])), 8), data[1..]);
    }
  }

  lemma AllOnes(w: bv32)
    ensures Bits(0xffffffff) == Complement(Zeros(32))
    ensures Bits(Xor(w, 0xffffffff)) == Complement(Bits(w))
  {
    forall i | 0 <= i < 32
      ensures Bit(0xffffffff, i)
      ensures Bit(Xor(w, 0xffffffff), i) == !Bit(w, i)
    {
      BitsByBytes(0xffffffff, i);
      BitXor(w, 0xffffffff, i);
      hide Bit, Xor;
    }
  }

  /** kal_crc32c computes the CRC32C of RFC 3720, for every input. */
  lemma ChecksumIsPolynomialRemainder(data: seq<byte>)
    ensures Bits(Crc(data)) == Reference(data)
  {
    FeedIsFeedBits(0xffffffff, data);
    DivisionByRegister(0xffffffff, MessageBits(data));
    AllOnes(Feed(0xffffffff, data));
  }

  // ------------------------------------------------------------ detection

  lemma StepInjective(x: bv32, y: bv32)
    requires BitStep(x) == BitStep(y)
    ensures x == y
  {
  }

  lemma {:induction false} StepsInjective(x: bv32, y: bv32, n: nat)
    requires Steps(x, n) == Steps(y, n)
    ensures x == y
    decreases n
  {
    hide BitStep;
    if n > 0 {
      StepsInjective(BitStep(x), BitStep(y), n - 1);
      StepInjective(x, y);
    }
  }

  lemma XorInjective(x: bv32, y: bv32, z: bv32)
    ensures Xor(x, z) == Xor(y, z) ==> x == y
    ensures Xor(z, x) == Xor(z, y) ==> x == y
  {
  }

  // Different registers stay different under the same input.
  lemma {:induction false} FeedInjective(x: bv32, y: bv32, data: seq<byte>)
    requires Feed(x, data) == Feed(y, data)
    ensures x == y
    decreases |data|
  {
    hide BitStep, Xor, Word;
    if data != [] {
      var w := Word(data[0]);
      FeedInjective(Steps(Xor(x, w), 8), Steps(Xor(y, w), 8), data[1..]);
      StepsInjective(Xor(x, w), Xor(y, w), 8);
      XorInjective(x, y, w);
    }
  }

  // Up to four bytes as one little-endian word: the register after them is a function of crc ^ word alone.
  function LittleEndian(data: seq<byte>): bv32
    decreases |data|
  {
    if data == [] then 0 else Xor(Word(data[0]), Up(LittleEndian(data[1..])))
  }

  function Up(w: bv32): bv32 { w << 8 }

  predicate Fits(w: bv32, n: nat) {
    if n == 0 then w == 0 else if n == 1 then w < 0x100 else if n == 2 then w < 0x1_0000
      else if n == 3 then w < 0x100_0000 else true
  }

  lemma FitsUp(b: byte, w: bv32, n: nat)
    requires Fits(w, n)
    ensures Fits(Xor(Word(b), Up(w)), n + 1)
  {
  }

  lemma FitsShort(data: seq<byte>)
    requires |data| <= 4
    ensures Fits(LittleEndian(data), |data|)
    decreases |data|
  {
    hide Xor, Word, Up;
    if data != [] {
      FitsShort(data[1..]);
      FitsUp(data[0], LittleEndian(data[1..]), |data| - 1);
    }
  }

  // The low n bits are clear.
  predicate Quiet(w: bv32, n: nat)
    decreases n
  {
    n == 0 || (!Low(w) && Quiet(Half(w), n - 1))
  }

  lemma {:induction false} QuietSteps(x: bv32, z: bv32, n: nat)
    requires Quiet(z, n)
    ensures Steps(Xor(x, z), n) == Xor(Steps(x, n), Shifted(z, n))
    decreases n
  {
    BitAtATime(x, z);
    hide Low, Half, Xor, BitStep;
    if n > 0 { QuietSteps(BitStep(x), Half(z), n - 1); }
  }

  lemma UpIsQuiet(y: bv32)
    requires Fits(y, 3)
    ensures Quiet(Up(y), 8) && NextByte(Up(y)) == y
  {
    var z := Up(y);
    assert !Low(z) && !Low(Half(z)) && !Low(Half(Half(z))) && !Low(Half(Half(Half(z))));
    var u := Half(Half(Half(Half(z))));
    assert !Low(u) && !Low(Half(u)) && !Low(Half(Half(u))) && !Low(Half(Half(Half(u))));
    hide Low, Half;
    assert Quiet(u, 4) by { assert Quiet(Half(Half(u)), 2); }
    assert Quiet(z, 8) by { assert Quiet(Half(Half(z)), 6); }
  }

  lemma {:induction false} StepsAdd(x: bv32, m: nat, n: nat)
    ensures Steps(x, m + n) == Steps(Steps(x, m), n)
    decreases m
  {
    hide BitStep;
    if m > 0 { StepsAdd(BitStep(x), m - 1, n); }
  }

  lemma XorAssociative(x: bv32, y: bv32, z: bv32)
    ensures Xor(Xor(x, y), z) == Xor(x, Xor(y, z)) && Xor(x, 0) == x
  {
  }

  lemma XorNothing(x: bv32)
    ensures Xor(x, 0) == x
  {
  }

  lemma {:induction false} FeedShort(crc: bv32, data: seq<byte>)
    requires |data| <= 4
    ensures Feed(crc, data) == Steps(Xor(crc, LittleEndian(data)), 8 * |data|)
    decreases |data|
  {
    hide Low, Half, Xor, BitStep, Word, Up, NextByte, Fits;
    if data == [] {
      XorNothing(crc);
    } else {
      var w := Word(data[0]);
      var rest := LittleEndian(data[1..]);
      FitsThree(data[1..]);
      UpIsQuiet(rest);
      ShiftedByte(Up(rest));
      QuietSteps(Xor(crc, w), Up(rest), 8);
      XorAssociative(crc, w, Up(rest));
      FeedShort(Steps(Xor(crc, w), 8), data[1..]);
      StepsAdd(Xor(crc, LittleEndian(data)), 8, 8 * |data[1..]|);
    }
  }

  lemma ShiftedByte(z: bv32)
    ensures Shifted(z, 8) == NextByte(z)
  {
    EightHalves(z);
    hide Half, NextByte;
    assert Shifted(z, 8) == Shifted(Half(Half(z)), 6) == Shifted(Half(Half(Half(Half(z)))), 4);
    assert Shifted(Half(Half(Half(Half(z)))), 4) == Shifted(Half(Half(Half(Half(Half(Half(z)))))), 2);
  }

  lemma SplitWord(a: byte, b: byte, x: bv32, y: bv32)
    requires Fits(x, 3) && Fits(y, 3)
    requires Xor(Word(a), Up(x)) == Xor(Word(b), Up(y))
    ensures a == b && x == y
  {
  }

  lemma FitsThree(data: seq<byte>)
    requires |data| <= 3
    ensures Fits(LittleEndian(data), 3)
  {
    FitsShort(data);
    hide LittleEndian;
  }

  lemma {:induction false} LittleEndianInjective(a: seq<byte>, b: seq<byte>)
    requires |a| == |b| <= 4
    requires LittleEndian(a) == LittleEndian(b)
    ensures a == b
    decreases |a|
  {
    hide Xor, Word, Up, Fits;
    if a != [] {
      FitsThree(a[1..]);
      FitsThree(b[1..]);
      SplitWord(a[0], b[0], LittleEndian(a[1..]), LittleEndian(b[1..]));
      LittleEndianInjective(a[1..], b[1..]);
      assert a == [a[0]] + a[1..] && b == [b[0]] + b[1..];
    }
  }

  /** Inputs that differ only inside four consecutive bytes have different checksums. */
  lemma BurstDetected(before: seq<byte>, a: seq<byte>, b: seq<byte>, after: seq<byte>)
    requires |a| == |b| <= 4 && a != b
    ensures Crc(before + a + after) != Crc(before + b + after)
  {
    hide BitStep, Xor, Word, Up, Fits;
    if Crc(before + a + after) == Crc(before + b + after) {
      XorInjective(Feed(0xffffffff, before + a + after), Feed(0xffffffff, before + b + after), 0xffffffff);
      var crc := Feed(0xffffffff, before);
      FeedAppend(0xffffffff, before + a, after);
      FeedAppend(0xffffffff, before + b, after);
      FeedAppend(0xffffffff, before, a);
      FeedAppend(0xffffffff, before, b);
      FeedInjective(Feed(crc, a), Feed(crc, b), after);
      FeedShort(crc, a);
      FeedShort(crc, b);
      StepsInjective(Xor(crc, LittleEndian(a)), Xor(crc, LittleEndian(b)), 8 * |a|);
      XorInjective(LittleEndian(a), LittleEndian(b), crc);
      LittleEndianInjective(a, b);
    }
  }

  lemma {:induction false} FeedAppend(crc: bv32, a: seq<byte>, b: seq<byte>)
    ensures Feed(crc, a + b) == Feed(Feed(crc, a), b)
    decreases |a|
  {
    hide BitStep, Xor, Word;
    if a == [] {
      assert a + b == b;
    } else {
      assert (a + b)[1..] == a[1..] + b;
      FeedAppend(Steps(Xor(crc, Word(a[0])), 8), a[1..], b);
    }
  }
}
