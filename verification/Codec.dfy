/**
  The 64-byte frame codec of src/kal_frame.c: big-endian fields, zero padding, CRC-32C trailer.
  Decoding and encoding are mutual inverses, so every frame has one encoding.
 */
module Codec {
  import opened Bytes
  import opened Wire
  import Crc32c

  type Raw = seq<byte>

  datatype Decoded = Good(frame: Frame) | Bad(status: Status)

  function Zeros(n: nat): (z: seq<byte>)
    ensures |z| == n
  {
    seq(n, _ => 0)
  }

  const MAGIC: seq<byte> := [75, 65, WIRE_VERSION] // "KA" and the version

  function Header(f: Frame): (h: seq<byte>)
    requires |f.payload| <= PAYLOAD_BYTES
    ensures |h| == HEADER_BYTES
  {
    MAGIC + [ToByte(f.kind)] + PutU32(f.session) + PutU16(f.message) + PutU16(f.sequence) + PutU16(f.value)
      + [ToByte(|f.payload|), ToByte(f.flags)]
  }

  // Bytes 0..59: header, payload, zero padding.
  function Body(f: Frame): (b: seq<byte>)
    requires |f.payload| <= PAYLOAD_BYTES
    ensures |b| == FRAME_BYTES - CRC_BYTES
  {
    Header(f) + f.payload + Zeros(PAYLOAD_BYTES - |f.payload|)
  }

  function Encode(f: Frame): (raw: Raw)
    requires Canonical(f)
    ensures |raw| == FRAME_BYTES
  {
    Body(f) + PutWord(Crc32c.Crc(Body(f)))
  }

  predicate PaddingIsZero(raw: Raw, payloadLength: nat)
    requires |raw| == FRAME_BYTES && payloadLength <= PAYLOAD_BYTES
  {
    forall i | HEADER_BYTES + payloadLength <= i < FRAME_BYTES - CRC_BYTES :: raw[i] == 0
  }

  // The header and payload fields, unchecked.
  function Fields(raw: Raw): Frame
    requires |raw| == FRAME_BYTES && FromByte(raw[14]) <= PAYLOAD_BYTES
  {
    Frame(FromByte(raw[3]), GetU32(raw[4..8]), GetU16(raw[8..10]), GetU16(raw[10..12]), GetU16(raw[12..14]),
          FromByte(raw[15]), raw[16..16 + FromByte(raw[14])])
  }

  /** kal_frame_decode, with the checks in the order of the source. */
  function Decode(raw: Raw): (d: Decoded)
    ensures d.Good? ==> Canonical(d.frame)
  {
    if |raw| != FRAME_BYTES then Bad(ErrSize)
    else if raw[..3] != MAGIC then Bad(ErrIdentity)
    else if Crc32c.Crc(raw[..60]) != GetWord(raw[60..]) then Bad(ErrCrc)
    else if FromByte(raw[14]) > PAYLOAD_BYTES then Bad(ErrRange)
    else if !PaddingIsZero(raw, FromByte(raw[14])) then Bad(ErrPadding)
    else
      var status := Validate(Fields(raw));
      if status != Ok then Bad(status) else Good(Fields(raw))
  }

  // ------------------------------------------------------------ round trips

  lemma HeaderFields(raw: Raw, f: Frame)
    requires |raw| == FRAME_BYTES && |f.payload| <= PAYLOAD_BYTES
    requires raw[..16] == Header(f) && raw[16..16 + |f.payload|] == f.payload
    ensures raw[..3] == MAGIC && FromByte(raw[14]) == |f.payload|
    ensures Fields(raw) == f
  {
    hide ToByte, FromByte, PutU16, GetU16, PutU32, GetU32;
    ByteInverse(f.kind, 0);
    ByteInverse(|f.payload|, 0);
    ByteInverse(f.flags, 0);
    U32Inverse(f.session, [0, 0, 0, 0]);
    U16Inverse(f.message, [0, 0]);
    U16Inverse(f.sequence, [0, 0]);
    U16Inverse(f.value, [0, 0]);
    var h := Header(f);
    assert raw[..3] == h[..3];
    assert raw[3] == h[3] && raw[14] == h[14] && raw[15] == h[15];
    assert raw[4..8] == h[4..8] == PutU32(f.session);
    assert raw[8..10] == h[8..10] == PutU16(f.message);
    assert raw[10..12] == h[10..12] == PutU16(f.sequence);
    assert raw[12..14] == h[12..14] == PutU16(f.value);
  }

  /** Decoding undoes encoding. */
  lemma DecodeEncode(f: Frame)
    requires Canonical(f)
    ensures Decode(Encode(f)) == Good(f)
  {
    hide Crc32c.Crc, PutWord, GetWord, PutU32, GetU32, ToByte, FromByte, Header, Validate, Fields;
    var raw := Encode(f);
    var n := |f.payload|;
    WordInverse(Crc32c.Crc(Body(f)), [0, 0, 0, 0]);
    assert raw[..60] == Body(f);
    assert raw[60..] == PutWord(Crc32c.Crc(Body(f)));
    assert raw[..16] == Header(f);
    assert raw[16..16 + n] == f.payload;
    HeaderFields(raw, f);
    assert forall i | 16 + n <= i < 60 :: raw[i] == Zeros(44 - n)[i - 16 - n] == 0;
  }

  lemma HeaderOfFields(raw: Raw)
    requires |raw| == FRAME_BYTES && FromByte(raw[14]) <= PAYLOAD_BYTES && raw[..3] == MAGIC
    ensures Header(Fields(raw)) == raw[..16]
  {
    hide ToByte, FromByte, PutU16, GetU16, PutU32, GetU32;
    ByteInverse(0, raw[3]);
    ByteInverse(0, raw[14]);
    ByteInverse(0, raw[15]);
    U32Inverse(0, raw[4..8]);
    U16Inverse(0, raw[8..10]);
    U16Inverse(0, raw[10..12]);
    U16Inverse(0, raw[12..14]);
    var h := raw[..3] + [raw[3]] + raw[4..8] + raw[8..10] + raw[10..12] + raw[12..14] + [raw[14], raw[15]];
    assert Header(Fields(raw)) == h;
    assert h == raw[..16];
  }

  lemma SplitBody(raw: Raw, payload: seq<byte>)
    requires |raw| == FRAME_BYTES && |payload| <= PAYLOAD_BYTES && payload == raw[16..16 + |payload|]
    requires PaddingIsZero(raw, |payload|)
    ensures raw[..16] + payload + Zeros(PAYLOAD_BYTES - |payload|) == raw[..60]
  {
  }

  lemma BodyOfFields(raw: Raw)
    requires |raw| == FRAME_BYTES && FromByte(raw[14]) <= PAYLOAD_BYTES && raw[..3] == MAGIC
    requires PaddingIsZero(raw, FromByte(raw[14]))
    ensures Body(Fields(raw)) == raw[..60]
  {
    HeaderOfFields(raw);
    hide FromByte, Header, GetU16, GetU32;
    SplitBody(raw, Fields(raw).payload);
  }

  /** Encoding undoes decoding, byte for byte: every decodable buffer is the canonical one. */
  lemma EncodeDecode(raw: Raw)
    requires Decode(raw).Good?
    ensures Encode(Decode(raw).frame) == raw
  {
    hide Crc32c.Crc, PutWord, GetWord, PutU32, GetU32, ToByte, FromByte, Body, Validate, Fields;
    var f := Fields(raw);
    HeaderOfFields(raw);
    WordInverse(0, raw[60..]);
    BodyOfFields(raw);
    assert raw == raw[..60] + raw[60..];
  }

  /** No two frames share an encoding, and no frame has two. */
  lemma EncodingIsInjective(f: Frame, g: Frame)
    requires Canonical(f) && Canonical(g)
    ensures Encode(f) == Encode(g) <==> f == g
  {
    DecodeEncode(f);
    DecodeEncode(g);
  }

  // ------------------------------------------------------------ layout

  // The number big-endian bytes spell.
  function Spelled(s: seq<byte>): nat {
    if s == [] then 0 else Spelled(s[..|s| - 1]) * 256 + s[|s| - 1] as int
  }

  lemma Spells16(v: u16)
    ensures Spelled(PutU16(v)) == v
  {
    hide ToByte, Quotient, Modulo;
    Division(v, 256);
    CastTo(Quotient(v, 256));
    CastTo(Modulo(v, 256));
    var s := PutU16(v);
    assert s[..1] == [s[0]] && s[..1][..0] == [];
    assert Spelled(s[..1]) == s[0] as int;
  }

  lemma SpellsOn(a: seq<byte>, b: seq<byte>)
    requires |b| == 2
    ensures Spelled(a + b) == Spelled(a) * 0x1_0000 + Spelled(b)
  {
    assert (a + b)[..|a| + 1][..|a|] == a && (a + b)[..|a| + 1][|a|] == b[0];
    assert Spelled((a + b)[..|a| + 1]) == Spelled(a) * 256 + b[0] as int;
    assert b[..1] == [b[0]] && b[..1][..0] == [];
    assert Spelled(b[..1]) == b[0] as int;
  }

  lemma Spells32(v: u32)
    ensures Spelled(PutU32(v)) == v
  {
    hide Spelled, PutU16, Quotient, Modulo;
    Division(v, 0x1_0000);
    Spells16(Quotient(v, 0x1_0000));
    Spells16(Modulo(v, 0x1_0000));
    SpellsOn(PutU16(Quotient(v, 0x1_0000)), PutU16(Modulo(v, 0x1_0000)));
  }

  /** Where each field stands in the 64 bytes. */
  lemma Layout(f: Frame)
    requires Canonical(f)
    ensures var raw := Encode(f);
      && raw[..3] == [0x4b, 0x41, 1] && raw[3] as int == f.kind
      && Spelled(raw[4..8]) == f.session && Spelled(raw[8..10]) == f.message
      && Spelled(raw[10..12]) == f.sequence && Spelled(raw[12..14]) == f.value
      && raw[14] as int == |f.payload| && raw[15] as int == f.flags
      && raw[16..16 + |f.payload|] == f.payload && PaddingIsZero(raw, |f.payload|)
      && GetWord(raw[60..]) == Crc32c.Crc(raw[..60])
  {
    hide Crc32c.Crc, PutWord, GetWord, PutU32, PutU16, ToByte, Header, Validate, Spelled;
    var raw, n, h := Encode(f), |f.payload|, Header(f);
    WordInverse(Crc32c.Crc(Body(f)), [0, 0, 0, 0]);
    assert raw[..60] == Body(f) && raw[60..] == PutWord(Crc32c.Crc(Body(f)));
    assert raw[16..16 + n] == f.payload;
    assert forall i | 16 + n <= i < 60 :: raw[i] == Zeros(44 - n)[i - 16 - n] == 0;
    HeaderSpells(f);
    assert raw[..16] == h;
    assert raw[4..8] == h[4..8] && raw[8..10] == h[8..10] && raw[10..12] == h[10..12] && raw[12..14] == h[12..14];
    assert raw[..3] == h[..3] && raw[3] == h[3] && raw[14] == h[14] && raw[15] == h[15];
  }

  lemma HeaderSpells(f: Frame)
    requires |f.payload| <= PAYLOAD_BYTES
    ensures var h := Header(f);
      && h[..3] == [0x4b, 0x41, 1] && h[3] as int == f.kind
      && Spelled(h[4..8]) == f.session && Spelled(h[8..10]) == f.message
      && Spelled(h[10..12]) == f.sequence && Spelled(h[12..14]) == f.value
      && h[14] as int == |f.payload| && h[15] as int == f.flags
  {
    hide PutU32, PutU16, ToByte, Spelled;
    CastTo(f.kind);
    CastTo(|f.payload|);
    CastTo(f.flags);
    Spells32(f.session);
    Spells16(f.message);
    Spells16(f.sequence);
    Spells16(f.value);
    var h := Header(f);
    assert h[4..8] == PutU32(f.session) && h[8..10] == PutU16(f.message);
    assert h[10..12] == PutU16(f.sequence) && h[12..14] == PutU16(f.value);
  }

  // ------------------------------------------------------------ damage

  // The two buffers differ, and only inside raw[from..from+n].
  predicate DamagedWithin(raw: Raw, damaged: Raw, from: nat, n: nat) {
    |damaged| == |raw| && from + n <= |raw| && raw != damaged
    && raw[..from] == damaged[..from] && raw[from + n..] == damaged[from + n..]
  }

  lemma TrailerDamage(raw: Raw, damaged: Raw, from: nat, n: nat)
    requires Decode(raw).Good? && DamagedWithin(raw, damaged, from, n) && 60 <= from
    ensures Decode(damaged) == Bad(ErrCrc)
  {
    hide Crc32c.Crc, GetWord, PutWord, GetU32, Fields, Validate, FromByte, PaddingIsZero;
    WordInverse(0, raw[60..]);
    WordInverse(0, damaged[60..]);
    assert raw[..60] == raw[..from][..60] == damaged[..from][..60] == damaged[..60];
    assert raw == raw[..60] + raw[60..] && damaged == damaged[..60] + damaged[60..];
  }

  lemma BodyDamage(raw: Raw, damaged: Raw, from: nat, n: nat)
    requires Decode(raw).Good? && DamagedWithin(raw, damaged, from, n) && n <= 4 && from + n <= 60
    ensures |damaged| == |raw| == FRAME_BYTES && raw[60..] == damaged[60..]
      && Crc32c.Crc(raw[..60]) != Crc32c.Crc(damaged[..60])
  {
    hide Crc32c.Crc, GetWord, PutWord, GetU32, Fields, Validate, FromByte, PaddingIsZero;
    var a, b := raw[from..from + n], damaged[from..from + n];
    var tail := raw[from + n..60];
    assert raw[60..] == raw[from + n..][60 - from - n..] == damaged[60..];
    assert tail == raw[from + n..][..60 - from - n] == damaged[from + n..60];
    assert raw == raw[..from] + a + raw[from + n..] && damaged == damaged[..from] + b + damaged[from + n..];
    assert raw[..60] == raw[..from] + a + tail && damaged[..60] == raw[..from] + b + tail;
    Crc32c.BurstDetected(raw[..from], a, b, tail);
  }

  /** Damage confined to four consecutive bytes before the trailer, or to the trailer, is always refused. */
  lemma DamageIsRefused(raw: Raw, damaged: Raw, from: nat, n: nat)
    requires Decode(raw).Good? && DamagedWithin(raw, damaged, from, n)
    requires n <= 4 && (from + n <= 60 || 60 <= from)
    ensures Decode(damaged) == Bad(ErrIdentity) || Decode(damaged) == Bad(ErrCrc)
  {
    hide Crc32c.Crc, GetWord, GetU32, Fields, Validate, FromByte, PaddingIsZero, DamagedWithin;
    if 60 <= from {
      TrailerDamage(raw, damaged, from, n);
    } else {
      BodyDamage(raw, damaged, from, n);
    }
  }

  // ------------------------------------------------------------ the buffer code

  // memcpy(buffer + at, source, |source|)
  method Copy(buffer: array<byte>, at: nat, source: seq<byte>)
    requires at + |source| <= buffer.Length
    modifies buffer
    ensures buffer[..at + |source|] == old(buffer[..at]) + source
    ensures forall i | at + |source| <= i < buffer.Length :: buffer[i] == old(buffer[i])
  {
    var i := 0;
    while i < |source|
      invariant 0 <= i <= |source|
      invariant buffer[..at + i] == old(buffer[..at]) + source[..i]
      invariant forall j | at + i <= j < buffer.Length :: buffer[j] == old(buffer[j])
    {
      buffer[at + i] := source[i];
      assert buffer[..at + i + 1] == buffer[..at + i] + [source[i]];
      i := i + 1;
    }
  }

  lemma BodyIs(f: Frame, body: seq<byte>)
    requires |f.payload| <= PAYLOAD_BYTES && body == Header(f) + f.payload + Zeros(PAYLOAD_BYTES - |f.payload|)
    ensures body == Body(f)
  {
  }

  method WriteHeader(f: Frame, output: array<byte>)
    requires output.Length == FRAME_BYTES && |f.payload| <= PAYLOAD_BYTES
    modifies output
    ensures output[..16] == Header(f)
    ensures forall i | 16 <= i < 64 :: output[i] == old(output[i])
  {
    hide PutU32, PutU16, ToByte;
    Copy(output, 0, MAGIC + [ToByte(f.kind)]);
    Copy(output, 4, PutU32(f.session));
    Copy(output, 8, PutU16(f.message));
    Copy(output, 10, PutU16(f.sequence));
    Copy(output, 12, PutU16(f.value));
    Copy(output, 14, [ToByte(|f.payload|), ToByte(f.flags)]);
  }

  /** kal_frame_encode: a refused frame leaves the buffer alone. */
  method EncodeInto(f: Frame, output: array<byte>) returns (status: Status)
    requires output.Length == FRAME_BYTES
    modifies output
    ensures status == Validate(f)
    ensures output[..] == if status == Ok then Encode(f) else old(output[..])
  {
    status := Validate(f);
    if status != Ok {
      return;
    }
    hide Crc32c.Crc, PutWord, PutU32, Header, Validate, Body;
    Copy(output, 0, Zeros(FRAME_BYTES));
    WriteHeader(f, output);
    if f.payload != [] {
      Copy(output, 16, f.payload);
    }
    assert output[..60] == output[..16 + |f.payload|] + Zeros(PAYLOAD_BYTES - |f.payload|);
    ghost var body := output[..60];
    BodyIs(f, body);
    var crc := Crc32c.Checksum(output[..60]);
    Copy(output, 60, PutWord(crc));
    assert output[..64] == body + PutWord(crc);
    assert output[..] == output[..64];
  }

  /** padding_is_zero */
  method CheckPadding(raw: Raw, payloadLength: nat) returns (zero: bool)
    requires |raw| == FRAME_BYTES && payloadLength <= PAYLOAD_BYTES
    ensures zero == PaddingIsZero(raw, payloadLength)
  {
    var index := HEADER_BYTES + payloadLength;
    while index < FRAME_BYTES - CRC_BYTES
      invariant HEADER_BYTES + payloadLength <= index <= FRAME_BYTES - CRC_BYTES
      invariant forall i | HEADER_BYTES + payloadLength <= i < index :: raw[i] == 0
    {
      if raw[index] != 0 {
        return false;
      }
      index := index + 1;
    }
    return true;
  }

  /** kal_frame_decode */
  method DecodeFrom(raw: Raw) returns (d: Decoded)
    ensures d == Decode(raw)
  {
    if |raw| != FRAME_BYTES {
      return Bad(ErrSize);
    }
    if raw[..3] != MAGIC {
      return Bad(ErrIdentity);
    }
    var expected := Crc32c.Checksum(raw[..60]);
    if expected != GetWord(raw[60..]) {
      return Bad(ErrCrc);
    }
    if FromByte(raw[14]) > PAYLOAD_BYTES {
      return Bad(ErrRange);
    }
    var zero := CheckPadding(raw, FromByte(raw[14]));
    if !zero {
      return Bad(ErrPadding);
    }
    var candidate := Fields(raw);
    if Validate(candidate) != Ok {
      return Bad(Validate(candidate));
    }
    return Good(candidate);
  }
}
