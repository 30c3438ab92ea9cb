/**
 The wire formats of MAVLink 1 and 2 frames, signed or not, and the attempt to read one
 frame at the start of a buffer (parsePacket, parseV1Packet and parseV2Packet of
 pkg/adapters/mavlink/parser.go).
 */
module Frames {
  import opened Checksum
  import opened Fields

  const STX_V1: byte := 0xfe
  const STX_V2: byte := 0xfd
  const HEADER_SIZE_V1 := 6
  const HEADER_SIZE_V2 := 10
  const CHECKSUM_SIZE := 2
  const SIGNATURE_SIZE := 13
  const MAX_PAYLOAD_LENGTH := 255

  /** The longest frame: a signed v2 frame with a full payload. */
  const MAX_FRAME_LENGTH := 280

  datatype Packet = Packet(
    version: nat,
    length: byte,
    sequence: byte,
    systemId: byte,
    componentId: byte,
    messageId: nat,
    payload: seq<byte>,
    checksum: bv16,
    signature: Option<seq<byte>>,
    fields: Option<map<string, FieldValue>>
  )

  datatype Attempt =
    | Incomplete
    | BadSync
    | BadChecksum
    | Accepted(packet: Packet, consumed: nat)

  datatype Header = Header(
    version: nat, size: nat, length: byte, sequence: byte,
    systemId: byte, componentId: byte, messageId: nat, signed: bool)
  {
    function ChecksumOffset(): nat {
      size + ToNat(length)
    }

    function FrameLength(): nat {
      ChecksumOffset() + CHECKSUM_SIZE + if signed then SIGNATURE_SIZE else 0
    }
  }

  predicate IsSync(b: byte) {
    b == STX_V1 || b == STX_V2
  }

  function HeaderV1(buffer: seq<byte>): Header
    requires |buffer| >= HEADER_SIZE_V1
  {
    Header(1, HEADER_SIZE_V1, buffer[1], buffer[2], buffer[3], buffer[4], ToNat(buffer[5]), false)
  }

  function HeaderV2(buffer: seq<byte>): Header
    requires |buffer| >= HEADER_SIZE_V2
  {
    var messageId := ToNat(buffer[7]) + 0x100 * ToNat(buffer[8]) + 0x1_0000 * ToNat(buffer[9]);
    Header(2, HEADER_SIZE_V2, buffer[1], buffer[4], buffer[5], buffer[6], messageId, buffer[2] & 1 != 0)
  }

  /** The header at the start of a buffer, once all of it has arrived. */
  function HeaderOf(buffer: seq<byte>): Option<Header> {
    if |buffer| < 2 then None
    else if buffer[0] == STX_V1 then
      if |buffer| < HEADER_SIZE_V1 then None else Some(HeaderV1(buffer))
    else
      if |buffer| < HEADER_SIZE_V2 then None else Some(HeaderV2(buffer))
  }

  function WireChecksum(buffer: seq<byte>, offset: nat): bv16
    requires offset + CHECKSUM_SIZE <= |buffer|
  {
    ((buffer[offset + 1] as bv16) << 8) | (buffer[offset] as bv16)
  }

  function CrcExtraFor(specs: map<nat, MessageSpec>, messageId: nat): Option<byte> {
    if messageId in specs then Some(specs[messageId].crcExtra) else StandardCrcExtra(messageId)
  }

  function KnownFields(specs: map<nat, MessageSpec>, messageId: nat, payload: seq<byte>): Option<map<string, FieldValue>> {
    if messageId in specs then Some(DecodeFields(specs[messageId].fields, payload)) else None
  }

  function PacketAt(buffer: seq<byte>, h: Header, specs: map<nat, MessageSpec>): Packet
    requires h.FrameLength() <= |buffer|
  {
    var payload := buffer[h.size..h.ChecksumOffset()];
    var signatureStart := h.ChecksumOffset() + CHECKSUM_SIZE;
    Packet(
      h.version, h.length, h.sequence, h.systemId, h.componentId, h.messageId, payload,
      WireChecksum(buffer, h.ChecksumOffset()),
      if h.signed then Some(buffer[signatureStart..signatureStart + SIGNATURE_SIZE]) else None,
      KnownFields(specs, h.messageId, payload))
  }

  predicate ChecksumMatches(buffer: seq<byte>, h: Header, specs: map<nat, MessageSpec>)
    requires 1 <= h.size && h.FrameLength() <= |buffer|
  {
    WireChecksum(buffer, h.ChecksumOffset())
      == ChecksumWithExtra(buffer[1..h.ChecksumOffset()], CrcExtraFor(specs, h.messageId))
  }

  function ReadFrame(buffer: seq<byte>, h: Header, specs: map<nat, MessageSpec>): Attempt
    requires 1 <= h.size
  {
    if |buffer| < h.FrameLength() then Incomplete
    else if !ChecksumMatches(buffer, h, specs) then BadChecksum
    else Accepted(PacketAt(buffer, h, specs), h.FrameLength())
  }

  /** What the parser makes of the start of a buffer. */
  function AttemptAt(buffer: seq<byte>, specs: map<nat, MessageSpec>): Attempt {
    if |buffer| < 2 then Incomplete
    else if !IsSync(buffer[0]) then BadSync
    else match HeaderOf(buffer)
      case None => Incomplete
      case Some(h) => ReadFrame(buffer, h, specs)
  }

  predicate IsAccepted(buffer: seq<byte>, specs: map<nat, MessageSpec>) {
    AttemptAt(buffer, specs).Accepted?
  }

  /** The number of bytes a packet took on the wire. */
  function WireLength(p: Packet): nat {
    (if p.version == 1 then HEADER_SIZE_V1 else HEADER_SIZE_V2) + |p.payload| + CHECKSUM_SIZE
      + (if p.signature.Some? then SIGNATURE_SIZE else 0)
  }

  lemma AttemptBounds(buffer: seq<byte>, specs: map<nat, MessageSpec>)
    ensures AttemptAt(buffer, specs).Incomplete? ==> |buffer| < 280
    ensures IsAccepted(buffer, specs) ==>
      var a := AttemptAt(buffer, specs);
      2 <= a.consumed <= |buffer| && a.consumed == WireLength(a.packet) && IsSync(buffer[0])
  {
  }

  /** Bytes that arrive later never change the verdict on a frame that was complete. */
  lemma AttemptIsStable(buffer: seq<byte>, more: seq<byte>, specs: map<nat, MessageSpec>)
    requires !AttemptAt(buffer, specs).Incomplete?
    ensures AttemptAt(buffer + more, specs) == AttemptAt(buffer, specs)
  {
    if IsSync(buffer[0]) {
      var h := HeaderOf(buffer).value;
      assert HeaderOf(buffer + more) == Some(h);
      FrameIsStable(buffer, more, h, specs);
    }
  }

  lemma FrameIsStable(buffer: seq<byte>, more: seq<byte>, h: Header, specs: map<nat, MessageSpec>)
    requires 1 <= h.size && h.FrameLength() <= |buffer|
    ensures ReadFrame(buffer + more, h, specs) == ReadFrame(buffer, h, specs)
  {
    hide ChecksumWithExtra, KnownFields, CrcExtraFor;
    var all := buffer + more;
    var end := h.ChecksumOffset();
    assert all[end] == buffer[end] && all[end + 1] == buffer[end + 1];
    assert WireChecksum(all, end) == WireChecksum(buffer, end);
    var signatureStart := h.ChecksumOffset() + CHECKSUM_SIZE;
    assert all[1..h.ChecksumOffset()] == buffer[1..h.ChecksumOffset()];
    assert all[h.size..h.ChecksumOffset()] == buffer[h.size..h.ChecksumOffset()];
    if h.signed {
      assert all[signatureStart..signatureStart + SIGNATURE_SIZE] == buffer[signatureStart..signatureStart + SIGNATURE_SIZE];
    }
  }

  /** Whether a frame is complete depends on its bytes alone, not on the registered specs. */
  lemma CompletenessIgnoresSpecs(buffer: seq<byte>, specs: map<nat, MessageSpec>, other: map<nat, MessageSpec>)
    ensures AttemptAt(buffer, specs).Incomplete? <==> AttemptAt(buffer, other).Incomplete?
  {
  }

  // ---------- Damaged frames ----------

  /** The header bytes that decide where a frame ends and which CRC-extra byte it takes. */
  predicate IsStructural(version: nat, k: nat) {
    k == 0 || k == 1 || (version == 1 && k == 5) || (version == 2 && (k == 2 || k == 7 || k == 8 || k == 9))
  }

  /**
   Damage at one byte, or at two adjacent bytes, of the sequence, system, component,
   compatibility or payload bytes of a valid frame is always caught by its checksum.
   */
  lemma AdjacentDamageIsCaught(good: seq<byte>, bad: seq<byte>, i: nat, specs: map<nat, MessageSpec>)
    requires IsAccepted(good, specs) && DifferAtMostAtPair(good, bad, i)
    requires var h := HeaderOf(good).value;
      forall k :: 0 <= k < |good| && good[k] != bad[k] ==>
        k < h.ChecksumOffset() && !IsStructural(h.version, k)
    requires good != bad
    ensures AttemptAt(bad, specs) == BadChecksum
  {
    hide AttemptAt, HeaderOf, ChecksumMatches;
    AcceptedFrame(good, specs);
    var h := HeaderOf(good).value;
    SameStructure(good, bad, h);
    var h' := HeaderOf(bad).value;
    FrameSizes(bad);
    DamagedChecksum(good, bad, i, h, h', specs);
    RejectedFrame(bad, h', specs);
  }

  lemma AcceptedFrame(s: seq<byte>, specs: map<nat, MessageSpec>)
    requires IsAccepted(s, specs)
    ensures |s| >= 2 && IsSync(s[0]) && HeaderOf(s).Some?
    ensures var h := HeaderOf(s).value;
      2 <= h.size && h.FrameLength() <= |s| && ChecksumMatches(s, h, specs)
  {
    hide ChecksumWithExtra, CrcExtraFor, KnownFields, WireChecksum;
  }

  lemma FrameSizes(s: seq<byte>)
    requires HeaderOf(s).Some?
    ensures 2 <= HeaderOf(s).value.size
  {}

  lemma RejectedFrame(s: seq<byte>, h: Header, specs: map<nat, MessageSpec>)
    requires |s| >= 2 && IsSync(s[0]) && HeaderOf(s) == Some(h) && 1 <= h.size && h.FrameLength() <= |s|
    requires !ChecksumMatches(s, h, specs)
    ensures AttemptAt(s, specs) == BadChecksum
  {
    hide ChecksumMatches, HeaderOf;
  }

  lemma DamagedChecksum(good: seq<byte>, bad: seq<byte>, i: nat, h: Header, h': Header, specs: map<nat, MessageSpec>)
    requires 2 <= h.size && h.FrameLength() <= |good| && ChecksumMatches(good, h, specs)
    requires h'.size == h.size && h'.length == h.length && h'.signed == h.signed && h'.messageId == h.messageId
    requires DifferAtMostAtPair(good, bad, i) && good != bad
    requires forall k :: 0 <= k < |good| && good[k] != bad[k] ==> 2 <= k < h.ChecksumOffset()
    ensures !ChecksumMatches(bad, h', specs)
  {
    hide ChecksumWithExtra, CrcExtraFor;
    var end := h.ChecksumOffset();
    assert good[end] == bad[end] && good[end + 1] == bad[end + 1];
    assert WireChecksum(bad, end) == WireChecksum(good, end);
    var k :| 0 <= k < |good| && good[k] != bad[k];
    CoveredDiffers(good, bad, i, k, end);
    if ChecksumMatches(bad, h', specs) {
      ChecksumSeparates(good[1..end], bad[1..end], i - 1, CrcExtraFor(specs, h.messageId));
    }
  }

  lemma CoveredDiffers(good: seq<byte>, bad: seq<byte>, i: nat, k: nat, end: nat)
    requires DifferAtMostAtPair(good, bad, i) && 2 <= k < end <= |good| && good[k] != bad[k]
    ensures i >= 1 && DifferAtMostAtPair(good[1..end], bad[1..end], i - 1)
    ensures good[1..end] != bad[1..end]
  {
    assert good[1..end][k - 1] != bad[1..end][k - 1];
  }

  lemma SameStructure(good: seq<byte>, bad: seq<byte>, h: Header)
    requires |good| == |bad| >= 2 && IsSync(good[0]) && HeaderOf(good) == Some(h)
    requires forall k :: 0 <= k < |good| && good[k] != bad[k] ==> !IsStructural(h.version, k)
    ensures HeaderOf(bad).Some?
    ensures var h' := HeaderOf(bad).value;
      h'.version == h.version && h'.size == h.size && h'.length == h.length
      && h'.signed == h.signed && h'.messageId == h.messageId
  {
    assert good[0] == bad[0] && good[1] == bad[1];
    if h.version == 1 {
      assert good[5] == bad[5];
    } else {
      assert good[2] == bad[2] && good[7] == bad[7] && good[8] == bad[8] && good[9] == bad[9];
    }
  }
}
