/** Big-endian integer fields (src/kal_frame.c, put_u16_be .. get_u32_be). */
module Bytes {

  type byte = bv8
  type u8 = x: int | 0 <= x < 0x100
  type u16 = x: int | 0 <= x < 0x1_0000
  type u32 = x: int | 0 <= x < 0x1_0000_0000

  // Unsigned division and its remainder, by counting. Proofs see them unfold a step at a time, where division by a
  // variable, or of every field of a frame, would be solved anew in each of them.
  function Quotient(v: nat, d: nat): nat
    requires 0 < d
  {
    if v < d then 0 else Quotient(v - d, d) + 1
  }

  function Modulo(v: nat, d: nat): nat
    requires 0 < d
  {
    if v < d then v else Modulo(v - d, d)
  }

  lemma {:induction false} Divided(v: nat, d: nat, q: nat, r: nat)
    requires r < d && v == d * q + r
    ensures Quotient(v, d) == q && Modulo(v, d) == r
    decreases q
  {
    if q == 0 {
      assert v == r;
    } else {
      assert d * q == d * (q - 1) + d;
      assert d * (q - 1) >= 0;
      Divided(v - d, d, q - 1, r);
    }
  }

  /** They are division and remainder. */
  lemma Division(v: nat, d: nat)
    requires 0 < d
    ensures Quotient(v, d) == v / d && Modulo(v, d) == v % d && v == d * Quotient(v, d) + Modulo(v, d)
  {
    Divided(v, d, v / d, v % d);
  }

  lemma IntOfByte(b: byte)
    ensures (b as int) as byte == b && 0 <= b as int < 256
  {
  }

  lemma NextByteValue(b: byte)
    requires b != 255
    ensures (b + 1) as int == b as int + 1
  {
  }

  // The casts between a number and a byte, by counting like division.
  function ToByte(n: u8): byte {
    if n == 0 then 0 else ToByte(n - 1) + 1
  }

  function FromByte(b: byte): u8
    decreases b as int
  {
    if b == 0 then 0
    else
      NextByteValue(b - 1);
      Modulo(FromByte(b - 1) + 1, 256)
  }

  /** They are the casts. */
  lemma {:induction false} CastTo(n: u8)
    ensures ToByte(n) == n as byte && ToByte(n) as int == n
    decreases n
  {
    if n == 0 {
      IntOfByte(0);
    } else {
      CastTo(n - 1);
      IntOfByte(255);
      NextByteValue(ToByte(n - 1));
      IntOfByte(ToByte(n));
    }
  }

  lemma {:induction false} CastFrom(b: byte)
    ensures FromByte(b) == b as int
    decreases b as int
  {
    hide Modulo;
    if b != 0 {
      IntOfByte(b);
      NextByteValue(b - 1);
      CastFrom(b - 1);
      Divided(FromByte(b - 1) + 1, 256, 0, FromByte(b - 1) + 1);
    }
  }

  lemma ByteInverse(n: u8, b: byte)
    ensures FromByte(ToByte(n)) == n && ToByte(FromByte(b)) == b
  {
    hide ToByte, FromByte;
    CastTo(n);
    CastFrom(ToByte(n));
    CastFrom(b);
    CastTo(FromByte(b));
    IntOfByte(b);
  }

  function PutU16(v: u16): (s: seq<byte>)
    ensures |s| == 2
  {
    Division(v, 256);
    [ToByte(Quotient(v, 256)), ToByte(Modulo(v, 256))]
  }

  function GetU16(s: seq<byte>): u16
    requires |s| == 2
  {
    FromByte(s[0]) * 256 + FromByte(s[1])
  }

  lemma U16Inverse(v: u16, s: seq<byte>)
    requires |s| == 2
    ensures GetU16(PutU16(v)) == v
    ensures PutU16(GetU16(s)) == s
  {
    hide ToByte, FromByte, Quotient, Modulo;
    Division(v, 256);
    ByteInverse(Quotient(v, 256), s[0]);
    ByteInverse(Modulo(v, 256), s[1]);
    Divided(GetU16(s), 256, FromByte(s[0]), FromByte(s[1]));
  }

  function PutU32(v: u32): (s: seq<byte>)
    ensures |s| == 4
  {
    Division(v, 0x1_0000);
    PutU16(Quotient(v, 0x1_0000)) + PutU16(Modulo(v, 0x1_0000))
  }

  function GetU32(s: seq<byte>): u32
    requires |s| == 4
  {
    GetU16(s[..2]) * 0x1_0000 + GetU16(s[2..])
  }

  lemma U32Inverse(v: u32, s: seq<byte>)
    requires |s| == 4
    ensures GetU32(PutU32(v)) == v
    ensures PutU32(GetU32(s)) == s
  {
    hide PutU16, GetU16, Quotient, Modulo;
    Division(v, 0x1_0000);
    var high, low := Quotient(v, 0x1_0000), Modulo(v, 0x1_0000);
    U16Inverse(high, s[..2]);
    U16Inverse(low, s[2..]);
    assert PutU32(v)[..2] == PutU16(high) && PutU32(v)[2..] == PutU16(low);
    Divided(GetU32(s), 0x1_0000, GetU16(s[..2]), GetU16(s[2..]));
    assert s == s[..2] + s[2..];
  }

  // The same four bytes of a machine word, for the checksum and the hash.
  function PutWord(v: bv32): (s: seq<byte>)
    ensures |s| == 4
  {
    [(v >> 24) as byte, ((v >> 16) & 0xff) as byte, ((v >> 8) & 0xff) as byte, (v & 0xff) as byte]
  }

  function GetWord(s: seq<byte>): bv32
    requires |s| == 4
  {
    (s[0] as bv32 << 24) | (s[1] as bv32 << 16) | (s[2] as bv32 << 8) | s[3] as bv32
  }

  lemma WordInverse(v: bv32, s: seq<byte>)
    requires |s| == 4
    ensures GetWord(PutWord(v)) == v
    ensures PutWord(GetWord(s)) == s
  {
  }
}
