/**
 The MAVLink 2 frame generator (pkg/adapters/mavlink/generator.go) and the codec round
 trip: whatever frames a generator emits, concatenated and cut into any chunks, a fresh
 parser gives back exactly the messages, in order, with every field value intact.
 */
module Generator {
  import opened Checksum
  import opened Fields
  import opened Frames
  import opened Scan
  import opened Encoding

  datatype BuildResult = Built(frame: array<byte>) | TooLarge

  // ---------- Writing into a payload array ----------

  // Each writes one value behind the values written before it.

  method PutByte(a: array<byte>, at: nat, n: uint8, ghost values: seq<FieldValue>, ghost k: nat)
    requires at < a.Length && k < |values| && a[..at] == EncodeAll(values[..k]) && Encode(values[k]) == [ToByte(n)]
    modifies a
    ensures a[..at + 1] == EncodeAll(values[..k + 1])
  {
    hide ToByte, Encode, EncodeAll;
    EncodeNext(values, k);
    PutBytes(a, at, [ToByte(n)]);
  }

  method PutUint16(a: array<byte>, at: nat, n: uint16, ghost values: seq<FieldValue>, ghost k: nat)
    requires at + 2 <= a.Length && k < |values| && a[..at] == EncodeAll(values[..k]) && Encode(values[k]) == Bytes16(n)
    modifies a
    ensures a[..at + 2] == EncodeAll(values[..k + 1])
  {
    hide Bytes16, Encode, EncodeAll;
    EncodeNext(values, k);
    PutBytes(a, at, Bytes16(n));
  }

  method PutUint32(a: array<byte>, at: nat, n: uint32, ghost values: seq<FieldValue>, ghost k: nat)
    requires at + 4 <= a.Length && k < |values| && a[..at] == EncodeAll(values[..k]) && Encode(values[k]) == Bytes32(n)
    modifies a
    ensures a[..at + 4] == EncodeAll(values[..k + 1])
  {
    hide Bytes32, Encode, EncodeAll;
    EncodeNext(values, k);
    PutBytes(a, at, Bytes32(n));
  }

  method PutUint16s(a: array<byte>, at: nat, words: seq<uint16>, ghost values: seq<FieldValue>, ghost k: nat)
    requires at + 2 * |words| <= a.Length && k < |values|
    requires a[..at] == EncodeAll(values[..k]) && Encode(values[k]) == WordsBytes(words)
    modifies a
    ensures a[..at + 2 * |words|] == EncodeAll(values[..k + 1])
  {
    hide Bytes16, Encode, EncodeAll;
    ghost var before := a[..at];
    for i := 0 to |words|
      invariant a[..at + 2 * i] == before + WordsBytes(words[..i])
    {
      WordsNext(words, i);
      PutBytes(a, at + 2 * i, Bytes16(words[i]));
    }
    assert words[..|words|] == words;
    EncodeNext(values, k);
  }

  lemma EncodeNext(values: seq<FieldValue>, i: nat)
    requires i < |values|
    ensures EncodeAll(values[..i + 1]) == EncodeAll(values[..i]) + Encode(values[i])
  {
    assert values[..i + 1][..i] == values[..i];
  }

  lemma EncodeNothing(values: seq<FieldValue>)
    ensures EncodeAll(values[..0]) == []
  {}

  lemma WordsNext(words: seq<uint16>, i: nat)
    requires i < |words|
    ensures WordsBytes(words[..i + 1]) == WordsBytes(words[..i]) + Bytes16(words[i])
  {
    assert words[..i + 1][..i] == words[..i];
  }

  /** A message on its way: who sends it, and under which sequence byte. */
  datatype Sent = Sent(systemId: byte, componentId: byte, sequence: byte, message: Message)

  function FrameOf(s: Sent): seq<byte>
    requires s.message.Valid()
  {
    PayloadLength(s.message);
    FrameBytes(s.systemId, s.componentId, s.sequence, s.message.Id(), Payload(s.message))
  }

  method HeartbeatPayload(m: Message) returns (payload: array<byte>)
    requires m.Heartbeat? && m.Valid()
    ensures fresh(payload) && payload[..] == Payload(m)
  {
    hide Bytes16, Bytes32, WordsBytes, ToByte, EncodeAll, FromInt8, FromInt16, FromInt32, Le16, Le32;
    ghost var v := m.Values();
    EncodeNothing(v);
    payload := new byte[9];
    PutUint32(payload, 0, m.customMode, v, 0);
    PutByte(payload, 4, m.vehicleType, v, 1);
    PutByte(payload, 5, m.autopilot, v, 2);
    PutByte(payload, 6, m.baseMode, v, 3);
    PutByte(payload, 7, m.systemStatus, v, 4);
    PutByte(payload, 8, m.mavlinkVersion, v, 5);
    assert payload[..] == payload[..9] && v[..6] == v;
  }

  method BatteryStatusPayload(m: Message) returns (payload: array<byte>)
    requires m.BatteryStatus? && m.Valid()
    ensures fresh(payload) && payload[..] == Payload(m)
  {
    hide Bytes16, Bytes32, WordsBytes, ToByte, EncodeAll, FromInt8, FromInt16, FromInt32, Le16, Le32;
    ghost var v := m.Values();
    EncodeNothing(v);
    payload := new byte[36];
    PutUint32(payload, 0, FromInt32(m.currentConsumed), v, 0);
    PutUint32(payload, 4, FromInt32(m.energyConsumed), v, 1);
    PutUint16(payload, 8, FromInt16(m.temperature), v, 2);
    PutUint16s(payload, 10, m.voltages, v, 3);
    PutBatteryTail(payload, m, v);
  }

  method PutBatteryTail(payload: array<byte>, m: Message, ghost v: seq<FieldValue>)
    requires m.BatteryStatus? && m.Valid() && v == m.Values()
    requires payload.Length == 36 && payload[..30] == EncodeAll(v[..4])
    modifies payload
    ensures payload[..] == Payload(m)
  {
    hide Bytes16, Bytes32, WordsBytes, ToByte, EncodeAll, FromInt8, FromInt16, FromInt32, Le16, Le32;
    PutUint16(payload, 30, FromInt16(m.currentBattery), v, 4);
    PutByte(payload, 32, m.batteryId, v, 5);
    PutByte(payload, 33, m.batteryFunction, v, 6);
    PutByte(payload, 34, m.batteryType, v, 7);
    PutByte(payload, 35, FromInt8(m.batteryRemaining), v, 8);
    assert payload[..] == payload[..36] && v[..9] == v;
  }

  method GlobalPositionPayload(m: Message) returns (payload: array<byte>)
    requires m.GlobalPosition? && m.Valid()
    ensures fresh(payload) && payload[..] == Payload(m)
  {
    hide Bytes16, Bytes32, WordsBytes, ToByte, EncodeAll, FromInt8, FromInt16, FromInt32, Le16, Le32;
    ghost var v := m.Values();
    EncodeNothing(v);
    payload := new byte[28];
    PutUint32(payload, 0, m.positionTime, v, 0);
    PutUint32(payload, 4, FromInt32(m.lat), v, 1);
    PutUint32(payload, 8, FromInt32(m.lon), v, 2);
    PutUint32(payload, 12, FromInt32(m.alt), v, 3);
    PutUint32(payload, 16, FromInt32(m.relativeAlt), v, 4);
    PutUint16(payload, 20, FromInt16(m.vx), v, 5);
    PutUint16(payload, 22, FromInt16(m.vy), v, 6);
    PutUint16(payload, 24, FromInt16(m.vz), v, 7);
    PutUint16(payload, 26, m.hdg, v, 8);
    assert payload[..] == payload[..28] && v[..9] == v;
  }

  method AttitudePayload(m: Message) returns (payload: array<byte>)
    requires m.Attitude? && m.Valid()
    ensures fresh(payload) && payload[..] == Payload(m)
  {
    hide Bytes16, Bytes32, WordsBytes, ToByte, EncodeAll, FromInt8, FromInt16, FromInt32, Le16, Le32;
    ghost var v := m.Values();
    EncodeNothing(v);
    payload := new byte[28];
    PutUint32(payload, 0, m.attitudeTime, v, 0);
    PutUint32(payload, 4, m.roll, v, 1);
    PutUint32(payload, 8, m.pitch, v, 2);
    PutUint32(payload, 12, m.yaw, v, 3);
    PutUint32(payload, 16, m.rollspeed, v, 4);
    PutUint32(payload, 20, m.pitchspeed, v, 5);
    PutUint32(payload, 24, m.yawspeed, v, 6);
    assert payload[..] == payload[..28] && v[..7] == v;
  }

  method CommandLongPayload(m: Message) returns (payload: array<byte>)
    requires m.CommandLong? && m.Valid()
    ensures fresh(payload) && payload[..] == Payload(m)
  {
    hide Bytes16, Bytes32, WordsBytes, ToByte, EncodeAll, FromInt8, FromInt16, FromInt32, Le16, Le32;
    ghost var v := m.Values();
    EncodeNothing(v);
    payload := new byte[33];
    for i := 0 to 7
      invariant payload[..4 * i] == EncodeAll(v[..i])
    {
      assert v[i] == Float32(m.params[i]);
      PutUint32(payload, 4 * i, m.params[i], v, i);
    }
    PutUint16(payload, 28, m.command, v, 7);
    PutByte(payload, 30, m.targetSystemId, v, 8);
    PutByte(payload, 31, m.targetComponentId, v, 9);
    PutByte(payload, 32, m.confirmation, v, 10);
    assert payload[..] == payload[..33] && v[..11] == v;
  }

  method CommandAckPayload(m: Message) returns (payload: array<byte>)
    requires m.CommandAck? && m.Valid()
    ensures fresh(payload) && payload[..] == Payload(m)
  {
    hide Bytes16, Bytes32, WordsBytes, ToByte, EncodeAll, FromInt8, FromInt16, FromInt32, Le16, Le32;
    ghost var v := m.Values();
    EncodeNothing(v);
    payload := new byte[10];
    PutUint16(payload, 0, m.ackCommand, v, 0);
    PutByte(payload, 2, m.result, v, 1);
    PutByte(payload, 3, m.progress, v, 2);
    PutUint32(payload, 4, FromInt32(m.resultParam2), v, 3);
    PutByte(payload, 8, m.ackSystemId, v, 4);
    PutByte(payload, 9, m.ackComponentId, v, 5);
    assert payload[..] == payload[..10] && v[..6] == v;
  }

  class Generator {
    var systemId: byte
    var componentId: byte
    var sequence: uint32

    constructor (systemId: byte, componentId: byte)
      ensures this.systemId == systemId && this.componentId == componentId && sequence == 0
    {
      this.systemId, this.componentId, sequence := systemId, componentId, 0;
    }

    method SetSystemId(id: byte)
      modifies this`systemId
      ensures systemId == id
    {
      systemId := id;
    }

    method SetComponentId(id: byte)
      modifies this`componentId
      ensures componentId == id
    {
      componentId := id;
    }

    method NextSequence() returns (n: uint8)
      modifies this`sequence
      ensures sequence == Successor(old(sequence)) && n == sequence % 0x100
    {
      sequence := Successor(sequence);
      n := sequence % 0x100;
    }

    method BuildV2Frame(messageId: nat, payload: array<byte>) returns (r: BuildResult)
      modifies this`sequence
      ensures r.TooLarge? <==> payload.Length > MAX_PAYLOAD_LENGTH
      ensures r.TooLarge? ==> sequence == old(sequence)
      ensures r.Built? ==>
        fresh(r.frame) && sequence == Successor(old(sequence)) &&
        r.frame[..] == FrameBytes(systemId, componentId, ToByte(sequence % 0x100), messageId, payload[..])
    {
      hide ChecksumWithExtra, StandardCrcExtra, ChecksumBytes, IdBytes, ToByte, HeaderBytes, FrameBytes;
      var length := payload.Length;
      if length > MAX_PAYLOAD_LENGTH {
        return TooLarge;
      }
      var n := NextSequence();
      var frame := new byte[HEADER_SIZE_V2 + length + CHECKSUM_SIZE];
      frame[0] := STX_V2;
      PutBytes(frame, 1, HeaderBytes(length, ToByte(n), systemId, componentId));
      PutBytes(frame, 7, IdBytes(messageId));
      PutBytes(frame, HEADER_SIZE_V2, payload[..]);
      var end := HEADER_SIZE_V2 + length;
      HeadOfFrame(frame[..end], systemId, componentId, ToByte(n), messageId, payload[..]);
      var checksum := CalculateChecksumWithExtra(frame[1..end], StandardCrcExtra(messageId));
      PutBytes(frame, end, ChecksumBytes(checksum));
      assert frame[..] == frame[..end + CHECKSUM_SIZE];
      return Built(frame);
    }

    method GenerateHeartbeat(m: Message) returns (r: BuildResult)
      requires m.Heartbeat? && m.Valid()
      modifies this`sequence
      ensures r.Built? && fresh(r.frame) && sequence == Successor(old(sequence))
      ensures r.frame[..] == FrameOf(Sent(systemId, componentId, ToByte(sequence % 0x100), m))
    {
      hide FrameBytes, Payload;
      var payload := HeartbeatPayload(m);
      PayloadLength(m);
      r := BuildV2Frame(m.Id(), payload);
    }

    method GenerateBatteryStatus(m: Message) returns (r: BuildResult)
      requires m.BatteryStatus? && m.Valid()
      modifies this`sequence
      ensures r.Built? && fresh(r.frame) && sequence == Successor(old(sequence))
      ensures r.frame[..] == FrameOf(Sent(systemId, componentId, ToByte(sequence % 0x100), m))
    {
      hide FrameBytes, Payload;
      var payload := BatteryStatusPayload(m);
      PayloadLength(m);
      r := BuildV2Frame(m.Id(), payload);
    }

    method GenerateGlobalPosition(m: Message) returns (r: BuildResult)
      requires m.GlobalPosition? && m.Valid()
      modifies this`sequence
      ensures r.Built? && fresh(r.frame) && sequence == Successor(old(sequence))
      ensures r.frame[..] == FrameOf(Sent(systemId, componentId, ToByte(sequence % 0x100), m))
    {
      hide FrameBytes, Payload;
      var payload := GlobalPositionPayload(m);
      PayloadLength(m);
      r := BuildV2Frame(m.Id(), payload);
    }

    method GenerateAttitude(m: Message) returns (r: BuildResult)
      requires m.Attitude? && m.Valid()
      modifies this`sequence
      ensures r.Built? && fresh(r.frame) && sequence == Successor(old(sequence))
      ensures r.frame[..] == FrameOf(Sent(systemId, componentId, ToByte(sequence % 0x100), m))
    {
      hide FrameBytes, Payload;
      var payload := AttitudePayload(m);
      PayloadLength(m);
      r := BuildV2Frame(m.Id(), payload);
    }

    method GenerateCommandLong(m: Message) returns (r: BuildResult)
      requires m.CommandLong? && m.Valid()
      modifies this`sequence
      ensures r.Built? && fresh(r.frame) && sequence == Successor(old(sequence))
      ensures r.frame[..] == FrameOf(Sent(systemId, componentId, ToByte(sequence % 0x100), m))
    {
      hide FrameBytes, Payload;
      var payload := CommandLongPayload(m);
      PayloadLength(m);
      r := BuildV2Frame(m.Id(), payload);
    }

    method GenerateCommandAck(m: Message) returns (r: BuildResult)
      requires m.CommandAck? && m.Valid()
      modifies this`sequence
      ensures r.Built? && fresh(r.frame) && sequence == Successor(old(sequence))
      ensures r.frame[..] == FrameOf(Sent(systemId, componentId, ToByte(sequence % 0x100), m))
    {
      hide FrameBytes, Payload;
      var payload := CommandAckPayload(m);
      PayloadLength(m);
      r := BuildV2Frame(m.Id(), payload);
    }
  }

  /** Copies b into the array from position `at` on. */
  method PutBytes(a: array<byte>, at: nat, b: seq<byte>)
    requires at + |b| <= a.Length
    modifies a
    ensures a[..at + |b|] == old(a[..at]) + b
  {
    for i := 0 to |b|
      invariant a[..at + i] == old(a[..at]) + b[..i]
    {
      a[at + i] := b[i];
      assert b[..i + 1] == b[..i] + [b[i]];
      assert a[..at + i + 1] == a[..at + i] + [b[i]];
    }
    assert b[..|b|] == b;
  }

  lemma HeadOfFrame(head: seq<byte>, systemId: byte, componentId: byte, sequence: byte, id: nat, payload: seq<byte>)
    requires |payload| <= MAX_PAYLOAD_LENGTH
    requires head == [STX_V2] + HeaderBytes(|payload|, sequence, systemId, componentId) + IdBytes(id) + payload
    ensures |head| == HEADER_SIZE_V2 + |payload| && head[1..] == CoveredBytes(systemId, componentId, sequence, id, payload)
    ensures FrameBytes(systemId, componentId, sequence, id, payload) ==
      head + ChecksumBytes(ChecksumWithExtra(head[1..], StandardCrcExtra(id)))
  {
    hide ChecksumWithExtra, StandardCrcExtra, ChecksumBytes, IdBytes, HeaderBytes;
    Regroup(STX_V2, HeaderBytes(|payload|, sequence, systemId, componentId), IdBytes(id), payload);
  }

  lemma Regroup(x: byte, a: seq<byte>, b: seq<byte>, c: seq<byte>)
    ensures [x] + a + b + c == [x] + (a + b + c)
    ensures ([x] + a + b + c)[1..] == a + b + c
  {}

  function Successor(n: uint32): uint32 {
    (n + 1) % 0x1_0000_0000
  }
}
