/**
 The layout of MAVLink frames byte by byte, and what the parser makes of each: the three
 wire formats written out in full, without the functions that read them.
 */
module Layout {
  import opened Checksum
  import opened Fields
  import opened Frames

  /** Too short for the frame that its first three bytes announce. */
  predicate IsCut(buffer: seq<byte>) {
    |buffer| < 2
    || (buffer[0] == 0xfe && |buffer| < 8 + buffer[1] as nat)
    || (buffer[0] == 0xfd && (|buffer| < 12 + buffer[1] as nat || (buffer[2] & 1 == 1 && |buffer| < 25 + buffer[1] as nat)))
  }

  /** A frame is awaited exactly as long as it is cut, and refused unseen exactly if it starts with neither start byte. */
  lemma WaitsExactly(buffer: seq<byte>, specs: map<nat, MessageSpec>)
    ensures AttemptAt(buffer, specs).Incomplete? <==> IsCut(buffer)
    ensures AttemptAt(buffer, specs).BadSync? <==> |buffer| >= 2 && buffer[0] != 0xfe && buffer[0] != 0xfd
  {
    hide ChecksumMatches, PacketAt;
    if |buffer| >= 3 {
      LowestBit(buffer[2]);
    }
  }

  lemma LowestBit(b: byte)
    ensures b & 1 == 0 || b & 1 == 1
  {}

  /** The checksum that a frame of a message has to carry behind the given bytes. */
  function Expected(covered: seq<byte>, specs: map<nat, MessageSpec>, id: nat): bv16 {
    ChecksumWithExtra(covered, if id in specs then Some(specs[id].crcExtra) else StandardCrcExtra(id))
  }

  /** The fields of a message whose layout is known. */
  function Decoded(specs: map<nat, MessageSpec>, id: nat, payload: seq<byte>): Option<map<string, FieldValue>> {
    if id in specs then Some(DecodeFields(specs[id].fields, payload)) else None
  }

  function LowByte(crc: bv16): byte {
    (crc & 0xff) as byte
  }

  function HighByte(crc: bv16): byte {
    (crc >> 8) as byte
  }

  /** A MAVLink 1 frame: start, length, sequence, system, component, message id, payload, checksum. */
  lemma V1FrameIsRead(
      length: byte, sequence: byte, system: byte, component: byte, id: byte, payload: seq<byte>, crc: bv16,
      more: seq<byte>, specs: map<nat, MessageSpec>)
    requires length as nat == |payload|
    ensures var covered := [length, sequence, system, component, id] + payload;
      AttemptAt([0xfe] + covered + [LowByte(crc), HighByte(crc)] + more, specs) ==
        if crc == Expected(covered, specs, id as nat) then
          Accepted(Packet(1, length, sequence, system, component, id as nat, payload, crc, None,
                          Decoded(specs, id as nat, payload)),
                   8 + |payload|)
        else BadChecksum
  {
    hide AttemptAt, HeaderOf, Expected, Decoded, LowByte, HighByte;
    var head := [length, sequence, system, component, id];
    var f := [0xfe] + (head + payload) + [LowByte(crc), HighByte(crc)];
    HeadStands(0xfe, head, payload, [LowByte(crc), HighByte(crc)]);
    V1Header(f, length, sequence, system, component, id);
    UnsignedFrame(0xfe, head, payload, crc, Header(1, 6, length, sequence, system, component, id as nat, false), specs);
    AttemptIsStable(f, more, specs);
  }

  /** A MAVLink 2 frame without a signature: its lowest incompatibility flag is off. */
  lemma V2FrameIsRead(
      length: byte, flags: byte, compatible: byte, sequence: byte, system: byte, component: byte,
      id0: byte, id1: byte, id2: byte, payload: seq<byte>, crc: bv16, more: seq<byte>, specs: map<nat, MessageSpec>)
    requires length as nat == |payload| && flags & 1 == 0
    ensures var id := id0 as nat + 0x100 * id1 as nat + 0x1_0000 * id2 as nat;
      var covered := [length, flags, compatible, sequence, system, component, id0, id1, id2] + payload;
      AttemptAt([0xfd] + covered + [LowByte(crc), HighByte(crc)] + more, specs) ==
        if crc == Expected(covered, specs, id) then
          Accepted(Packet(2, length, sequence, system, component, id, payload, crc, None, Decoded(specs, id, payload)),
                   12 + |payload|)
        else BadChecksum
  {
    hide AttemptAt, HeaderOf, Expected, Decoded, LowByte, HighByte;
    var id := id0 as nat + 0x100 * id1 as nat + 0x1_0000 * id2 as nat;
    var head := [length, flags, compatible, sequence, system, component, id0, id1, id2];
    var f := [0xfd] + (head + payload) + [LowByte(crc), HighByte(crc)];
    HeadStands(0xfd, head, payload, [LowByte(crc), HighByte(crc)]);
    V2Header(f, length, flags, compatible, sequence, system, component, id0, id1, id2);
    UnsignedFrame(0xfd, head, payload, crc, Header(2, 10, length, sequence, system, component, id, false), specs);
    AttemptIsStable(f, more, specs);
  }

  /** A signed MAVLink 2 frame: thirteen bytes of signature follow its checksum. */
  lemma SignedFrameIsRead(
      length: byte, flags: byte, compatible: byte, sequence: byte, system: byte, component: byte,
      id0: byte, id1: byte, id2: byte, payload: seq<byte>, crc: bv16, signature: seq<byte>, more: seq<byte>,
      specs: map<nat, MessageSpec>)
    requires length as nat == |payload| && flags & 1 == 1 && |signature| == 13
    ensures var id := id0 as nat + 0x100 * id1 as nat + 0x1_0000 * id2 as nat;
      var covered := [length, flags, compatible, sequence, system, component, id0, id1, id2] + payload;
      AttemptAt([0xfd] + covered + [LowByte(crc), HighByte(crc)] + signature + more, specs) ==
        if crc == Expected(covered, specs, id) then
          Accepted(Packet(2, length, sequence, system, component, id, payload, crc, Some(signature),
                          Decoded(specs, id, payload)),
                   25 + |payload|)
        else BadChecksum
  {
    hide AttemptAt, HeaderOf, Expected, Decoded, LowByte, HighByte;
    var id := id0 as nat + 0x100 * id1 as nat + 0x1_0000 * id2 as nat;
    var head := [length, flags, compatible, sequence, system, component, id0, id1, id2];
    var f := [0xfd] + (head + payload) + [LowByte(crc), HighByte(crc)] + signature;
    Spans(0xfd, head, payload, [LowByte(crc), HighByte(crc)], signature);
    V2Header(f, length, flags, compatible, sequence, system, component, id0, id1, id2);
    FrameAround(0xfd, head, payload, crc, signature, Header(2, 10, length, sequence, system, component, id, true), specs);
    AttemptIsStable(f, more, specs);
  }

  // ---------- Behind the three lemmas ----------

  lemma V1Header(f: seq<byte>, length: byte, sequence: byte, system: byte, component: byte, id: byte)
    requires |f| >= 6 && f[0] == 0xfe && f[1..6] == [length, sequence, system, component, id]
    ensures HeaderOf(f) == Some(Header(1, 6, length, sequence, system, component, id as nat, false))
  {
    var head := f[1..6];
    assert f[1] == head[0] && f[2] == head[1] && f[3] == head[2] && f[4] == head[3] && f[5] == head[4];
  }

  lemma V2Header(
      f: seq<byte>, length: byte, flags: byte, compatible: byte, sequence: byte, system: byte, component: byte,
      id0: byte, id1: byte, id2: byte)
    requires |f| >= 10 && f[0] == 0xfd
    requires f[1..10] == [length, flags, compatible, sequence, system, component, id0, id1, id2]
    ensures HeaderOf(f) == Some(Header(2, 10, length, sequence, system, component,
                                       id0 as nat + 0x100 * id1 as nat + 0x1_0000 * id2 as nat, flags & 1 != 0))
  {
    var head := f[1..10];
    assert f[1] == head[0] && f[2] == head[1] && f[4] == head[3] && f[5] == head[4] && f[6] == head[5];
    assert f[7] == head[6] && f[8] == head[7] && f[9] == head[8];
    HeaderBytes(f);
  }

  lemma HeaderBytes(f: seq<byte>)
    requires |f| >= 10 && f[0] == 0xfd
    ensures HeaderOf(f) == Some(Header(2, 10, f[1], f[4], f[5], f[6],
                                       f[7] as nat + 0x100 * f[8] as nat + 0x1_0000 * f[9] as nat, f[2] & 1 != 0))
  {}

  lemma Spans(start: byte, head: seq<byte>, payload: seq<byte>, check: seq<byte>, signature: seq<byte>)
    requires |check| == 2
    ensures var (f, n) := ([start] + (head + payload) + check + signature, 1 + |head|);
      f[1..n] == head && f[n..n + |payload|] == payload && f[n + |payload| + 2..] == signature
      && [start] + (head + payload) + check <= f
  {}

  lemma HeadStands(start: byte, head: seq<byte>, payload: seq<byte>, check: seq<byte>)
    ensures var f := [start] + (head + payload) + check;
      |f| == 1 + |head| + |payload| + |check| && f[0] == start && f[1..1 + |head|] == head
  {}

  lemma FrameAround(
      start: byte, head: seq<byte>, payload: seq<byte>, crc: bv16, signature: seq<byte>, h: Header, specs: map<nat, MessageSpec>)
    requires start == 0xfe || start == 0xfd
    requires |head| >= 1 && h.size == 1 + |head| && h.length as nat == |payload| && |signature| == if h.signed then 13 else 0
    requires HeaderOf([start] + (head + payload) + [LowByte(crc), HighByte(crc)] + signature) == Some(h)
    ensures var f := [start] + (head + payload) + [LowByte(crc), HighByte(crc)] + signature;
      AttemptAt(f, specs) ==
        if crc == Expected(head + payload, specs, h.messageId) then
          Accepted(Packet(h.version, h.length, h.sequence, h.systemId, h.componentId, h.messageId, payload, crc,
                          if h.signed then Some(signature) else None, Decoded(specs, h.messageId, payload)),
                   |f|)
        else BadChecksum
  {
    hide AttemptAt, HeaderOf, Expected, Decoded, LowByte, HighByte;
    var f := [start] + (head + payload) + [LowByte(crc), HighByte(crc)] + signature;
    Spans(start, head, payload, [LowByte(crc), HighByte(crc)], signature);
    FrameIsRead(f, h, head + payload, payload, crc, specs);
  }

  lemma UnsignedFrame(start: byte, head: seq<byte>, payload: seq<byte>, crc: bv16, h: Header, specs: map<nat, MessageSpec>)
    requires start == 0xfe || start == 0xfd
    requires |head| >= 1 && h.size == 1 + |head| && h.length as nat == |payload| && !h.signed
    requires HeaderOf([start] + (head + payload) + [LowByte(crc), HighByte(crc)]) == Some(h)
    ensures var f := [start] + (head + payload) + [LowByte(crc), HighByte(crc)];
      AttemptAt(f, specs) ==
        if crc == Expected(head + payload, specs, h.messageId) then
          Accepted(Packet(h.version, h.length, h.sequence, h.systemId, h.componentId, h.messageId, payload, crc,
                          None, Decoded(specs, h.messageId, payload)),
                   |f|)
        else BadChecksum
  {
    hide AttemptAt, HeaderOf, Expected, Decoded, LowByte, HighByte;
    NothingMore([start] + (head + payload) + [LowByte(crc), HighByte(crc)]);
    FrameAround(start, head, payload, crc, [], h, specs);
  }

  lemma NothingMore(f: seq<byte>)
    ensures f + [] == f
  {}

  lemma BytesOfChecksum(crc: bv16)
    ensures (HighByte(crc) as bv16 << 8) | LowByte(crc) as bv16 == crc
  {}

  lemma LastBytes(f: seq<byte>, start: nat, end: nat)
    requires start <= end == |f|
    ensures f[start..end] == f[start..]
  {}

  lemma CoveredAndChecked(f: seq<byte>, end: nat, covered: seq<byte>, crc: bv16)
    requires f != [] && |covered| == end - 1 && end + 2 <= |f|
    requires [f[0]] + covered + [LowByte(crc), HighByte(crc)] <= f
    ensures f[1..end] == covered && WireChecksum(f, end) == crc
  {
    hide LowByte, HighByte;
    var start := [f[0]] + covered + [LowByte(crc), HighByte(crc)];
    assert start[1..end] == covered;
    assert f[..end + 2] == start;
    assert f[1..end] == start[1..end];
    assert f[end] == start[end] == LowByte(crc) && f[end + 1] == start[end + 1] == HighByte(crc);
    BytesOfChecksum(crc);
  }

  lemma FrameIsRead(f: seq<byte>, h: Header, covered: seq<byte>, payload: seq<byte>, crc: bv16, specs: map<nat, MessageSpec>)
    requires |f| >= 2 && (f[0] == 0xfe || f[0] == 0xfd) && HeaderOf(f) == Some(h) && 1 <= h.size
    requires h.FrameLength() == |f| && |covered| == h.ChecksumOffset() - 1
    requires [f[0]] + covered + [LowByte(crc), HighByte(crc)] <= f
    requires f[h.size..h.ChecksumOffset()] == payload
    ensures AttemptAt(f, specs) ==
      if crc == Expected(covered, specs, h.messageId) then
        Accepted(Packet(h.version, h.length, h.sequence, h.systemId, h.componentId, h.messageId, payload, crc,
                        if h.signed then Some(f[h.ChecksumOffset() + 2..]) else None,
                        Decoded(specs, h.messageId, payload)),
                 |f|)
      else BadChecksum
  {
    hide ChecksumWithExtra, StandardCrcExtra, DecodeFields, LowByte, HighByte, HeaderOf, WireChecksum;
    CoveredAndChecked(f, h.ChecksumOffset(), covered, crc);
    if h.signed {
      LastBytes(f, h.ChecksumOffset() + 2, h.ChecksumOffset() + 15);
    }
  }
}
