/**
  KAL1 wire vocabulary: constants (include/kilix_acoustic_link.h, src/kal_frame.h), the frame record,
  the capability word, the segment equation and the canonical-form validation of src/kal_frame.c.
 */
module Wire {
  import opened Bytes

  datatype Option<+T> = None | Some(value: T)

  const FRAME_BYTES := 64
  const HEADER_BYTES := 16
  const PAYLOAD_BYTES := 44
  const CRC_BYTES := 4
  const DIGEST_BYTES := 32
  const MAX_SEGMENTS := 94
  const MAX_MESSAGE_BYTES := 4096
  const MAX_BEACON_BYTES := 44
  const MIN_WINDOW := 1
  const MAX_WINDOW := 16
  const CHALLENGE_BYTES := 16
  const PROFILE_COUNT := 6
  const CANCEL_TIMEOUT := 2
  const CANCEL_REASON_MAX := 4
  const WIRE_VERSION: byte := 1

  const HELLO: u8 := 1
  const HELLO_ACK: u8 := 2
  const DATA: u8 := 3
  const ACK: u8 := 4
  const CANCEL: u8 := 5
  const BEACON: u8 := 6

  const FLAG_DATA_FINAL: u8 := 1
  const FLAG_ACK_DELIVERED: u8 := 1

  datatype Status = Ok | ErrSize | ErrIdentity | ErrCrc | ErrFlags | ErrRange | ErrCanonical | ErrPadding | ErrType

  /** struct kal_frame; `payload` stands for the first payload_length bytes of the C buffer. */
  datatype Frame = Frame(
    kind: u8,
    session: u32,
    message: u16,
    sequence: u16, // position of a DATA segment, or first gap of an ACK
    value: u16,    // number of DATA segments, map of an ACK, reason of a CANCEL, capability of an opening
    flags: u8,
    payload: seq<byte>)

  // The lowest flag bit: the final segment of DATA, the delivered message of ACK.
  predicate Flagged(f: Frame) {
    Modulo(f.flags, 2) == 1
  }

  function CapabilityPack(profile: u8, window: u16): u16 {
    Division(window, 256);
    profile * 256 + Modulo(window, 256)
  }

  function CapabilityProfile(capability: u16): u8 {
    Division(capability, 256);
    Quotient(capability, 256)
  }

  function CapabilityWindow(capability: u16): u16 {
    Division(capability, 256);
    Modulo(capability, 256)
  }

  /** kal_segment_count: the message and its 32-byte digest in 44-byte segments. */
  function SegmentCount(application: nat): (segments: Option<nat>)
    ensures segments.Some? <==> application <= MAX_MESSAGE_BYTES
    ensures segments.Some? ==> 1 <= segments.value <= MAX_SEGMENTS
    ensures segments.Some? ==> 44 * (segments.value - 1) < application + DIGEST_BYTES <= 44 * segments.value
  {
    if application > MAX_MESSAGE_BYTES then None
    else
      // The source tests the quotient against 1..94 again; for these lengths it cannot leave that range.
      Division(application + DIGEST_BYTES + PAYLOAD_BYTES - 1, PAYLOAD_BYTES);
      Some(Quotient(application + DIGEST_BYTES + PAYLOAD_BYTES - 1, PAYLOAD_BYTES))
  }

  /** Canonical form, with the checks in the order of the source. */
  function Validate(f: Frame): Status {
    if |f.payload| > PAYLOAD_BYTES then ErrRange
    else if f.kind == HELLO || f.kind == HELLO_ACK then ValidateHello(f)
    else if f.kind == DATA then ValidateData(f)
    else if f.kind == ACK then ValidateAck(f)
    else if f.kind == CANCEL then
      if f.flags != 0 then ErrFlags
      else if f.sequence != 0 || f.payload != [] then ErrCanonical
      else if f.value > CANCEL_REASON_MAX then ErrRange
      else Ok
    else if f.kind == BEACON then
      if f.flags != 0 then ErrFlags
      else if f.sequence != 0 || f.value != 0 then ErrCanonical
      else if f.payload == [] || |f.payload| > MAX_BEACON_BYTES then ErrRange
      else Ok
    else ErrType
  }

  function ValidateHello(f: Frame): Status {
    var window := CapabilityWindow(f.value);
    if f.flags != 0 then ErrFlags
    else if f.sequence != 0 then ErrCanonical
    else if |f.payload| != CHALLENGE_BYTES then ErrCanonical
    else if CapabilityProfile(f.value) >= PROFILE_COUNT then ErrRange
    else if window < MIN_WINDOW || window > MAX_WINDOW then ErrRange
    else Ok
  }

  function ValidateData(f: Frame): Status {
    var finalExpected := f.value != 0 && f.sequence == f.value - 1;
    if f.value == 0 || f.value > MAX_SEGMENTS then ErrRange
    else if f.sequence >= f.value then ErrRange
    else if f.flags >= 2 then ErrFlags
    else if Flagged(f) != finalExpected then ErrCanonical
    else if Flagged(f) then if f.payload == [] then ErrCanonical else Ok
    else if |f.payload| != PAYLOAD_BYTES then ErrCanonical
    else Ok
  }

  function ValidateAck(f: Frame): Status {
    if f.flags >= 2 then ErrFlags
    else if f.sequence > MAX_SEGMENTS then ErrRange
    else if f.payload != [] then ErrCanonical
    else if Flagged(f) && (f.sequence == 0 || f.value != 0) then ErrCanonical
    else Ok
  }

  predicate Canonical(f: Frame) {
    Validate(f) == Ok
  }

  // The canonical form of docs/KAL1-WIRE.md, field by field.
  predicate WellFormed(f: Frame) {
    if f.kind == 1 || f.kind == 2 then
      && f.flags == 0 && f.sequence == 0 && |f.payload| == 16 && f.value / 256 < 6 && 1 <= f.value % 256 <= 16
    else if f.kind == 3 then
      && 1 <= f.value <= 94 && f.sequence < f.value
      && if f.sequence + 1 == f.value then f.flags == 1 && 1 <= |f.payload| <= 44
         else f.flags == 0 && |f.payload| == 44
    else if f.kind == 4 then
      && f.payload == []
      && ((f.flags == 0 && f.sequence <= 94) || (f.flags == 1 && 1 <= f.sequence <= 94 && f.value == 0))
    else if f.kind == 5 then f.flags == 0 && f.sequence == 0 && f.value <= 4 && f.payload == []
    else f.kind == 6 && f.flags == 0 && f.sequence == 0 && f.value == 0 && 1 <= |f.payload| <= 44
  }

  /** The checks of kal_frame_validate, in whatever order, accept exactly the canonical form. */
  lemma CanonicalExactly(f: Frame)
    ensures Canonical(f) <==> WellFormed(f)
  {
    Division(f.value, 256);
    Division(f.flags, 2);
  }
}
