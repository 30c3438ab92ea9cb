/**
 How typed messages become MAVLink 2 frames (the payload encoders and buildV2Frame of
 pkg/adapters/mavlink/generator.go), and the proof that one such frame is read back as it
 was meant, field by field.
 */
module Encoding {
  import opened Checksum
  import opened Fields
  import opened Frames
  import opened Scan

  /** The typed messages; float fields are carried as their IEEE bit patterns. */
  datatype Message =
    | Heartbeat(vehicleType: uint8, autopilot: uint8, baseMode: uint8, customMode: uint32, systemStatus: uint8, mavlinkVersion: uint8)
    | BatteryStatus(
        batteryId: uint8, batteryFunction: uint8, batteryType: uint8, temperature: int16, voltages: seq<uint16>,
        currentBattery: int16, currentConsumed: int32, energyConsumed: int32, batteryRemaining: int8)
    | GlobalPosition(
        positionTime: uint32, lat: int32, lon: int32, alt: int32, relativeAlt: int32, vx: int16, vy: int16, vz: int16, hdg: uint16)
    | Attitude(
        attitudeTime: uint32, roll: uint32, pitch: uint32, yaw: uint32, rollspeed: uint32, pitchspeed: uint32, yawspeed: uint32)
    | CommandLong(command: uint16, targetSystemId: uint8, targetComponentId: uint8, confirmation: uint8, params: seq<uint32>)
    | CommandAck(ackCommand: uint16, result: uint8, progress: uint8, resultParam2: int32, ackSystemId: uint8, ackComponentId: uint8)
  {
    /** The array fields have the lengths their Go array types fix. */
    predicate Valid() {
      match this
      case BatteryStatus(_, _, _, _, voltages, _, _, _, _) => |voltages| == 10
      case CommandLong(_, _, _, _, params) => |params| == 7
      case _ => true
    }

    function Id(): nat {
      match this
      case Heartbeat(_, _, _, _, _, _) => HEARTBEAT
      case BatteryStatus(_, _, _, _, _, _, _, _, _) => BATTERY_STATUS
      case GlobalPosition(_, _, _, _, _, _, _, _, _) => GLOBAL_POSITION_INT
      case Attitude(_, _, _, _, _, _, _) => ATTITUDE
      case CommandLong(_, _, _, _, _) => COMMAND_LONG
      case CommandAck(_, _, _, _, _, _) => COMMAND_ACK
    }

    /** The field values of the message, in the order of its wire table. */
    function Values(): seq<FieldValue>
      requires Valid()
    {
      match this
      case Heartbeat(vehicle, autopilot, base, custom, status, version) =>
        [Uint32(custom), Uint8(vehicle), Uint8(autopilot), Uint8(base), Uint8(status), Uint8(version)]
      case BatteryStatus(id, function', kind, temperature, voltages, current, consumed, energy, remaining) =>
        [Int32(consumed), Int32(energy), Int16(temperature), Uint16Array(voltages), Int16(current),
         Uint8(id), Uint8(function'), Uint8(kind), Int8(remaining)]
      case GlobalPosition(time, lat, lon, alt, relative, vx, vy, vz, hdg) =>
        [Uint32(time), Int32(lat), Int32(lon), Int32(alt), Int32(relative), Int16(vx), Int16(vy), Int16(vz), Uint16(hdg)]
      case Attitude(time, roll, pitch, yaw, rollspeed, pitchspeed, yawspeed) =>
        [Uint32(time), Float32(roll), Float32(pitch), Float32(yaw), Float32(rollspeed), Float32(pitchspeed), Float32(yawspeed)]
      case CommandLong(command, system, component, confirmation, params) =>
        [Float32(params[0]), Float32(params[1]), Float32(params[2]), Float32(params[3]), Float32(params[4]),
         Float32(params[5]), Float32(params[6]), Uint16(command), Uint8(system), Uint8(component), Uint8(confirmation)]
      case CommandAck(command, result, progress, param, system, component) =>
        [Uint16(command), Uint8(result), Uint8(progress), Int32(param), Uint8(system), Uint8(component)]
    }
  }

  function FieldsOf(id: nat): seq<FieldSpec> {
    if id == HEARTBEAT then HEARTBEAT_FIELDS
    else if id == BATTERY_STATUS then BATTERY_FIELDS
    else if id == GLOBAL_POSITION_INT then GLOBAL_POSITION_FIELDS
    else if id == ATTITUDE then ATTITUDE_FIELDS
    else if id == COMMAND_LONG then COMMAND_LONG_FIELDS
    else COMMAND_ACK_FIELDS
  }

  /** The messages of the common dialect: their ids, names, CRC-extra bytes and payload sizes. */
  lemma MessagesAreStandard(m: Message)
    ensures var (id, name, extra, size) :=
      match m
      case Heartbeat(_, _, _, _, _, _) => (0, "HEARTBEAT", 50, 9)
      case Attitude(_, _, _, _, _, _, _) => (30, "ATTITUDE", 39, 28)
      case GlobalPosition(_, _, _, _, _, _, _, _, _) => (33, "GLOBAL_POSITION_INT", 104, 28)
      case CommandLong(_, _, _, _, _) => (76, "COMMAND_LONG", 152, 33)
      case CommandAck(_, _, _, _, _, _) => (77, "COMMAND_ACK", 143, 10)
      case BatteryStatus(_, _, _, _, _, _, _, _, _) => (147, "BATTERY_STATUS", 154, 36);
      m.Id() == id && StandardCrcExtra(id) == Some(extra)
      && id in StandardSpecs() && StandardSpecs()[id] == MessageSpec(id, name, size, extra, FieldsOf(id))
      && (m.Valid() ==> |Payload(m)| == size)
  {
    if m.Valid() {
      PayloadLength(m);
    }
  }

  /** No other message has a CRC-extra byte or a layout. */
  lemma OthersAreUnknown(id: nat)
    requires id !in {0, 30, 33, 76, 77, 147}
    ensures StandardCrcExtra(id) == None && id !in StandardSpecs()
  {}

  // ---------- Byte encodings ----------

  function Bytes16(n: uint16): (b: seq<byte>)
    ensures |b| == 2
  {
    [ToByte(n % 0x100), ToByte(n / 0x100)]
  }

  function Bytes32(n: uint32): (b: seq<byte>)
    ensures |b| == 4
  {
    [ToByte(n % 0x100), ToByte(n / 0x100 % 0x100), ToByte(n / 0x1_0000 % 0x100), ToByte(n / 0x100_0000)]
  }

  lemma Read16(n: uint16)
    ensures Le16(Bytes16(n)) == n
  {
    hide ToNat, ToByte;
  }

  lemma FourDigits(n: uint32)
    ensures n == n % 0x100 + 0x100 * (n / 0x100 % 0x100) + 0x1_0000 * (n / 0x1_0000 % 0x100) + 0x100_0000 * (n / 0x100_0000)
  {
    assert n / 0x100 / 0x100 == n / 0x1_0000;
    assert n / 0x1_0000 / 0x100 == n / 0x100_0000;
  }

  lemma Read32(n: uint32)
    ensures Le32(Bytes32(n)) == n
  {
    hide ToNat, ToByte;
    FourDigits(n);
  }

  function FromInt8(n: int8): (u: uint8)
    ensures ToInt8(u) == n
  {
    if n >= 0 then n else n + 0x100
  }

  function FromInt16(n: int16): (u: uint16)
    ensures ToInt16(u) == n
  {
    if n >= 0 then n else n + 0x1_0000
  }

  function FromInt32(n: int32): (u: uint32)
    ensures ToInt32(u) == n
  {
    if n >= 0 then n else n + 0x1_0000_0000
  }

  function WordsBytes(words: seq<uint16>): (b: seq<byte>)
    ensures |b| == 2 * |words|
  {
    if words == [] then [] else WordsBytes(words[..|words| - 1]) + Bytes16(words[|words| - 1])
  }

  /** The bytes of one field value on the wire. */
  function Encode(v: FieldValue): seq<byte> {
    match v
    case Uint8(n) => [ToByte(n)]
    case Int8(n) => [ToByte(FromInt8(n))]
    case Uint16(n) => Bytes16(n)
    case Int16(n) => Bytes16(FromInt16(n))
    case Uint32(n) => Bytes32(n)
    case Int32(n) => Bytes32(FromInt32(n))
    case Float32(bits) => Bytes32(bits)
    case Uint16Array(words) => WordsBytes(words)
    case _ => []
  }

  /** The values laid out one behind the other. */
  function EncodeAll(values: seq<FieldValue>): seq<byte> {
    if values == [] then [] else EncodeAll(values[..|values| - 1]) + Encode(values[|values| - 1])
  }

  lemma {:induction false} WordAt(words: seq<uint16>, i: nat)
    requires i < |words|
    ensures WordsBytes(words)[2 * i..2 * i + 2] == Bytes16(words[i])
  {
    var init := words[..|words| - 1];
    if i < |init| {
      WordAt(init, i);
      assert WordsBytes(words)[2 * i..2 * i + 2] == WordsBytes(init)[2 * i..2 * i + 2];
    }
  }

  /** A field of the wire table reads back the value that was encoded for it. */
  predicate Matches(field: FieldSpec, v: FieldValue) {
    field.size == |Encode(v)| && ParseFieldValue(Encode(v), field) == Some(v)
  }

  predicate MatchesScalar(field: FieldSpec, v: FieldValue) {
    field.arraySize == 0 &&
    match v
      case Uint8(_) => field.kind == TUint8 && field.size == 1
      case Int8(_) => field.kind == TInt8 && field.size == 1
      case Uint16(_) => field.kind == TUint16 && field.size == 2
      case Int16(_) => field.kind == TInt16 && field.size == 2
      case Uint32(_) => field.kind == TUint32 && field.size == 4
      case Int32(_) => field.kind == TInt32 && field.size == 4
      case Float32(_) => field.kind == TFloat && field.size == 4
      case _ => false
  }

  lemma ScalarMatches(field: FieldSpec, v: FieldValue)
    requires MatchesScalar(field, v)
    ensures Matches(field, v)
  {
    hide ToNat, ToByte, Bytes16, Bytes32, Le16, Le32;
    match v
    case Uint16(n) => Read16(n);
    case Int16(n) => Read16(FromInt16(n));
    case Uint32(n) => Read32(n);
    case Int32(n) => Read32(FromInt32(n));
    case Float32(bits) => Read32(bits);
    case _ =>
  }

  lemma ArrayMatches(field: FieldSpec, words: seq<uint16>)
    requires field.kind == TUint16 && field.arraySize == |words| > 1 && field.size == 2 * |words|
    ensures Matches(field, Uint16Array(words))
  {
    var data := WordsBytes(words);
    var read := seq(field.arraySize, i requires 0 <= i < field.arraySize => Le16(data[2 * i..2 * i + 2]));
    forall i | 0 <= i < |words|
      ensures read[i] == words[i]
    {
      WordAt(words, i);
      Read16(words[i]);
    }
    assert read == words;
  }

  // ---------- Layout: fields one behind the other ----------

  /** Field i starts where the values before it end, and reads its value back. */
  ghost predicate LaidOut(fields: seq<FieldSpec>, values: seq<FieldValue>) {
    |fields| == |values|
    && forall i :: 0 <= i < |fields| ==> fields[i].offset == |EncodeAll(values[..i])| && Matches(fields[i], values[i])
  }

  lemma {:induction false} EncodeAllPrefix(values: seq<FieldValue>, i: nat)
    requires i <= |values|
    ensures EncodeAll(values[..i]) <= EncodeAll(values)
  {
    if i < |values| {
      var init := values[..|values| - 1];
      assert init[..i] == values[..i];
      EncodeAllPrefix(init, i);
    } else {
      assert values[..i] == values;
    }
  }

  lemma FieldReadsBack(fields: seq<FieldSpec>, values: seq<FieldValue>, i: nat)
    requires LaidOut(fields, values) && i < |fields|
    ensures FieldAt(EncodeAll(values), fields[i]) == Some(values[i])
  {
    hide Encode, ParseFieldValue;
    var upTo := values[..i + 1];
    assert upTo[..i] == values[..i];
    EncodeAllPrefix(values, i + 1);
    var payload := EncodeAll(values);
    var start := fields[i].offset;
    assert EncodeAll(upTo) == EncodeAll(values[..i]) + Encode(values[i]);
    assert payload[start..start + fields[i].size] == EncodeAll(upTo)[start..];
  }

  /** The decoded field map holds exactly the encoded values under the names of the table. */
  ghost predicate Carries(decoded: map<string, FieldValue>, fields: seq<FieldSpec>, values: seq<FieldValue>) {
    |fields| == |values|
    && (forall i :: 0 <= i < |fields| ==> fields[i].name in decoded && decoded[fields[i].name] == values[i])
    && forall name <- decoded :: exists i :: 0 <= i < |fields| && fields[i].name == name
  }

  lemma DecodeCarries(fields: seq<FieldSpec>, values: seq<FieldValue>)
    requires LaidOut(fields, values) && DistinctNames(fields)
    ensures Carries(DecodeFields(fields, EncodeAll(values)), fields, values)
  {
    var payload := EncodeAll(values);
    var decoded := DecodeFields(fields, payload);
    forall i | 0 <= i < |fields|
      ensures fields[i].name in decoded && decoded[fields[i].name] == values[i]
    {
      FieldReadsBack(fields, values, i);
      DecodedField(fields, payload, i);
    }
    forall name | name in decoded
      ensures exists i :: 0 <= i < |fields| && fields[i].name == name
    {
      if forall i :: 0 <= i < |fields| ==> fields[i].name != name {
        OnlyNamedFields(fields, payload, name);
      }
    }
  }

  lemma {:induction false} OffsetOfField(fields: seq<FieldSpec>, values: seq<FieldValue>, i: nat)
    requires |fields| == |values| && i < |fields| && Contiguous(fields)
    requires forall k :: 0 <= k < |fields| ==> fields[k].size == |Encode(values[k])|
    ensures fields[i].offset == |EncodeAll(values[..i])|
  {
    hide Encode;
    if i > 0 {
      OffsetOfField(fields, values, i - 1);
      var before := values[..i];
      assert before[..i - 1] == values[..i - 1] && before[i - 1] == values[i - 1];
      assert fields[i].offset == fields[i - 1].offset + fields[i - 1].size;
    }
  }

  /** Fields without gaps, each matching its value, are laid out as the values are encoded. */
  lemma ContiguousFieldsAreLaidOut(fields: seq<FieldSpec>, values: seq<FieldValue>)
    requires |fields| == |values| && Contiguous(fields)
    requires forall i :: 0 <= i < |fields| ==> Matches(fields[i], values[i])
    ensures LaidOut(fields, values)
  {
    hide Matches, Encode, EncodeAll;
    forall i | 0 <= i < |fields|
      ensures fields[i].size == |Encode(values[i])|
    {
      SizeOfMatch(fields[i], values[i]);
    }
    forall i | 0 <= i < |fields|
      ensures fields[i].offset == |EncodeAll(values[..i])|
    {
      OffsetOfField(fields, values, i);
    }
  }

  lemma SizeOfMatch(field: FieldSpec, v: FieldValue)
    requires Matches(field, v)
    ensures field.size == |Encode(v)|
  {}

  /** The value has the type, the size and the array length of the field. */
  predicate Fits(field: FieldSpec, v: FieldValue) {
    if v.Uint16Array? then
      field.kind == TUint16 && field.arraySize == |v.words| > 1 && field.size == 2 * |v.words|
    else
      MatchesScalar(field, v)
  }

  predicate AllFit(fields: seq<FieldSpec>, values: seq<FieldValue>) {
    |fields| == |values| && forall i :: 0 <= i < |fields| ==> Fits(fields[i], values[i])
  }

  predicate Contiguous(fields: seq<FieldSpec>) {
    (fields != [] ==> fields[0].offset == 0)
    && forall i, j :: 0 <= i < |fields| && j == i + 1 < |fields| ==> fields[j].offset == fields[i].offset + fields[i].size
  }

  lemma HeartbeatTable()
    ensures Contiguous(HEARTBEAT_FIELDS)
  {}

  lemma HeartbeatNames()
    ensures DistinctNames(HEARTBEAT_FIELDS)
  {}

  lemma GlobalPositionTable()
    ensures Contiguous(GLOBAL_POSITION_FIELDS)
  {}

  lemma GlobalPositionNames()
    ensures DistinctNames(GLOBAL_POSITION_FIELDS)
  {}

  lemma AttitudeTable()
    ensures Contiguous(ATTITUDE_FIELDS)
  {}

  lemma AttitudeNames()
    ensures DistinctNames(ATTITUDE_FIELDS)
  {}

  lemma CommandLongTable()
    ensures Contiguous(COMMAND_LONG_FIELDS)
  {}

  lemma CommandLongNames()
    ensures DistinctNames(COMMAND_LONG_FIELDS)
  {}

  lemma CommandAckTable()
    ensures Contiguous(COMMAND_ACK_FIELDS)
  {}

  lemma CommandAckNames()
    ensures DistinctNames(COMMAND_ACK_FIELDS)
  {}

  lemma BatteryTable()
    ensures Contiguous(BATTERY_FIELDS)
  {}

  lemma BatteryNames()
    ensures DistinctNames(BATTERY_FIELDS)
  {}

  lemma TableOf(m: Message)
    requires m.Valid()
    ensures Contiguous(FieldsOf(m.Id())) && DistinctNames(FieldsOf(m.Id()))
  {
    hide Contiguous, DistinctNames;
    HeartbeatTable();
    HeartbeatNames();
    GlobalPositionTable();
    GlobalPositionNames();
    AttitudeTable();
    AttitudeNames();
    CommandLongTable();
    CommandLongNames();
    CommandAckTable();
    CommandAckNames();
    BatteryTable();
    BatteryNames();
  }

  lemma ScalarsFit(fields: seq<FieldSpec>, values: seq<FieldValue>)
    requires |fields| == |values| && forall i :: 0 <= i < |fields| ==> MatchesScalar(fields[i], values[i])
    ensures AllFit(fields, values)
  {}

  lemma HeartbeatFits(m: Message)
    requires m.Heartbeat? && m.Valid()
    ensures AllFit(HEARTBEAT_FIELDS, m.Values())
  {
    hide Fits;
    ScalarsFit(HEARTBEAT_FIELDS, m.Values());
  }

  lemma GlobalPositionFits(m: Message)
    requires m.GlobalPosition? && m.Valid()
    ensures AllFit(GLOBAL_POSITION_FIELDS, m.Values())
  {
    hide Fits;
    ScalarsFit(GLOBAL_POSITION_FIELDS, m.Values());
  }

  lemma AttitudeFits(m: Message)
    requires m.Attitude? && m.Valid()
    ensures AllFit(ATTITUDE_FIELDS, m.Values())
  {
    hide Fits;
    ScalarsFit(ATTITUDE_FIELDS, m.Values());
  }

  lemma CommandLongFits(m: Message)
    requires m.CommandLong? && m.Valid()
    ensures AllFit(COMMAND_LONG_FIELDS, m.Values())
  {
    hide Fits;
    ScalarsFit(COMMAND_LONG_FIELDS, m.Values());
  }

  lemma CommandAckFits(m: Message)
    requires m.CommandAck? && m.Valid()
    ensures AllFit(COMMAND_ACK_FIELDS, m.Values())
  {
    hide Fits;
    ScalarsFit(COMMAND_ACK_FIELDS, m.Values());
  }

  lemma BatteryFits(m: Message)
    requires m.BatteryStatus? && m.Valid()
    ensures AllFit(BATTERY_FIELDS, m.Values())
  {}

  lemma ValuesFit(m: Message)
    requires m.Valid()
    ensures AllFit(FieldsOf(m.Id()), m.Values())
  {
    hide AllFit, Message.Values;
    match m
    case Heartbeat(_, _, _, _, _, _) => HeartbeatFits(m);
    case BatteryStatus(_, _, _, _, _, _, _, _, _) => BatteryFits(m);
    case GlobalPosition(_, _, _, _, _, _, _, _, _) => GlobalPositionFits(m);
    case Attitude(_, _, _, _, _, _, _) => AttitudeFits(m);
    case CommandLong(_, _, _, _, _) => CommandLongFits(m);
    case CommandAck(_, _, _, _, _, _) => CommandAckFits(m);
  }

  lemma FittingTableIsLaidOut(fields: seq<FieldSpec>, values: seq<FieldValue>)
    requires Contiguous(fields) && AllFit(fields, values)
    ensures LaidOut(fields, values)
  {
    hide Matches;
    forall i | 0 <= i < |fields|
      ensures Matches(fields[i], values[i])
    {
      if values[i].Uint16Array? {
        ArrayMatches(fields[i], values[i].words);
      } else {
        ScalarMatches(fields[i], values[i]);
      }
    }
    ContiguousFieldsAreLaidOut(fields, values);
  }

  function Payload(m: Message): seq<byte>
    requires m.Valid()
  {
    EncodeAll(m.Values())
  }

  lemma LengthOfLaidOut(fields: seq<FieldSpec>, values: seq<FieldValue>)
    requires LaidOut(fields, values) && fields != []
    ensures |EncodeAll(values)| == fields[|fields| - 1].offset + fields[|fields| - 1].size
  {
    hide Matches, Encode;
    var n := |fields| - 1;
    SizeOfMatch(fields[n], values[n]);
    assert EncodeAll(values) == EncodeAll(values[..n]) + Encode(values[n]);
  }

  lemma TableFitsPayload(id: nat)
    ensures var fields := FieldsOf(id);
      fields != [] && fields[|fields| - 1].offset + fields[|fields| - 1].size <= MAX_PAYLOAD_LENGTH
  {}

  lemma PayloadLength(m: Message)
    requires m.Valid()
    ensures var fields := FieldsOf(m.Id());
      fields != [] && |Payload(m)| == fields[|fields| - 1].offset + fields[|fields| - 1].size <= MAX_PAYLOAD_LENGTH
  {
    hide Message.Values, FieldsOf, AllFit, Contiguous, DistinctNames, LaidOut;
    TableOf(m);
    ValuesFit(m);
    TableFitsPayload(m.Id());
    FittingTableIsLaidOut(FieldsOf(m.Id()), m.Values());
    LengthOfLaidOut(FieldsOf(m.Id()), m.Values());
  }

  /** Decoding the payload of a message gives its values under the names of its table. */
  lemma PayloadRoundTrip(m: Message)
    requires m.Valid()
    ensures Carries(DecodeFields(FieldsOf(m.Id()), Payload(m)), FieldsOf(m.Id()), m.Values())
  {
    hide Message.Values, FieldsOf, AllFit, Contiguous, DistinctNames, LaidOut, Carries;
    TableOf(m);
    ValuesFit(m);
    FittingTableIsLaidOut(FieldsOf(m.Id()), m.Values());
    DecodeCarries(FieldsOf(m.Id()), m.Values());
  }

  /** A payload stands for one message of its type: nothing of a message is lost on the wire. */
  lemma PayloadsDiffer(m: Message, n: Message)
    requires m.Valid() && n.Valid() && m.Id() == n.Id() && Payload(m) == Payload(n)
    ensures m == n
  {
    hide FieldsOf, DecodeFields;
    PayloadRoundTrip(m);
    PayloadRoundTrip(n);
    SameCarried(DecodeFields(FieldsOf(m.Id()), Payload(m)), FieldsOf(m.Id()), m.Values(), n.Values());
    ValuesDiffer(m, n);
  }

  lemma SameCarried(decoded: map<string, FieldValue>, fields: seq<FieldSpec>, v: seq<FieldValue>, w: seq<FieldValue>)
    requires Carries(decoded, fields, v) && Carries(decoded, fields, w)
    ensures v == w
  {
    assert forall i :: 0 <= i < |v| ==> v[i] == decoded[fields[i].name] == w[i];
  }

  lemma ValuesDiffer(m: Message, n: Message)
    requires m.Valid() && n.Valid() && m.Id() == n.Id() && m.Values() == n.Values()
    ensures m == n
  {
    if m.CommandLong? {
      CommandsDiffer(m, n);
    } else {
      var v, w := m.Values(), n.Values();
      assert forall i :: 0 <= i < |v| ==> v[i] == w[i];
    }
  }

  lemma CommandsDiffer(m: Message, n: Message)
    requires m.CommandLong? && n.CommandLong? && m.Valid() && n.Valid() && m.Values() == n.Values()
    ensures m == n
  {
    var v, w := m.Values(), n.Values();
    assert forall i :: 0 <= i < |v| ==> v[i] == w[i];
    assert forall k :: 0 <= k < 7 ==> v[k] == Float32(m.params[k]) && w[k] == Float32(n.params[k]);
    assert m.params == n.params;
  }

  // ---------- Frames ----------

  /** The 24 bits of a message id that travel in a v2 header. */
  function IdBytes(id: nat): (b: seq<byte>)
    ensures |b| == 3
  {
    [ToByte(id % 0x100), ToByte(id / 0x100 % 0x100), ToByte(id / 0x1_0000 % 0x100)]
  }

  function ChecksumBytes(crc: bv16): (b: seq<byte>)
    ensures |b| == 2
  {
    [(crc & 0xff) as bv8, (crc >> 8) as bv8]
  }

  /** Length, two zero flag bytes, sequence, system and component. */
  function HeaderBytes(length: uint8, sequence: byte, systemId: byte, componentId: byte): (b: seq<byte>)
    ensures |b| == 6
  {
    [ToByte(length), 0, 0, sequence, systemId, componentId]
  }

  /** The part of a frame that its checksum covers, behind the start byte. */
  function CoveredBytes(systemId: byte, componentId: byte, sequence: byte, id: nat, payload: seq<byte>): seq<byte>
    requires |payload| <= MAX_PAYLOAD_LENGTH
  {
    HeaderBytes(|payload|, sequence, systemId, componentId) + IdBytes(id) + payload
  }

  function FrameBytes(systemId: byte, componentId: byte, sequence: byte, id: nat, payload: seq<byte>): seq<byte>
    requires |payload| <= MAX_PAYLOAD_LENGTH
  {
    var covered := CoveredBytes(systemId, componentId, sequence, id, payload);
    [STX_V2] + covered + ChecksumBytes(ChecksumWithExtra(covered, StandardCrcExtra(id)))
  }

  /** The packet that a parser with the standard table makes of such a frame. */
  function PacketFor(systemId: byte, componentId: byte, sequence: byte, id: nat, payload: seq<byte>): Packet
    requires |payload| <= MAX_PAYLOAD_LENGTH
  {
    var covered := CoveredBytes(systemId, componentId, sequence, id, payload);
    Packet(2, ToByte(|payload|), sequence, systemId, componentId, id, payload,
           ChecksumWithExtra(covered, StandardCrcExtra(id)), None, KnownFields(StandardSpecs(), id, payload))
  }

  lemma ReadChecksumBack(crc: bv16)
    ensures ((ChecksumBytes(crc)[1] as bv16) << 8) | (ChecksumBytes(crc)[0] as bv16) == crc
  {}

  lemma ThreeDigits(n: nat)
    requires n < 0x100_0000
    ensures n == n % 0x100 + 0x100 * (n / 0x100 % 0x100) + 0x1_0000 * (n / 0x1_0000 % 0x100)
  {
    assert n / 0x100 / 0x100 == n / 0x1_0000;
  }

  lemma ReadIdBack(id: nat)
    requires id < 0x100_0000
    ensures ToNat(IdBytes(id)[0]) + 0x100 * ToNat(IdBytes(id)[1]) + 0x1_0000 * ToNat(IdBytes(id)[2]) == id
  {
    hide ToNat, ToByte;
    ThreeDigits(id);
  }

  lemma StandardExtras(id: nat)
    ensures CrcExtraFor(StandardSpecs(), id) == StandardCrcExtra(id)
  {}

  lemma HeaderOfFrame(systemId: byte, componentId: byte, sequence: byte, id: nat, payload: seq<byte>)
    requires |payload| <= MAX_PAYLOAD_LENGTH && id < 0x100_0000
    ensures var f := FrameBytes(systemId, componentId, sequence, id, payload);
      |f| == HEADER_SIZE_V2 + |payload| + CHECKSUM_SIZE && f[0] == STX_V2
      && HeaderOf(f) == Some(Header(2, HEADER_SIZE_V2, ToByte(|payload|), sequence, systemId, componentId, id, false))
  {
    hide ToNat, ToByte, ChecksumWithExtra, StandardCrcExtra, ChecksumBytes;
    var f := FrameBytes(systemId, componentId, sequence, id, payload);
    var covered := CoveredBytes(systemId, componentId, sequence, id, payload);
    assert f[1] == covered[0] && f[2] == covered[1] == 0 && f[4] == covered[3] && f[5] == covered[4] && f[6] == covered[5];
    assert f[7] == covered[6] == IdBytes(id)[0] && f[8] == covered[7] == IdBytes(id)[1] && f[9] == covered[8] == IdBytes(id)[2];
    ReadIdBack(id);
  }

  /** A generated frame is read back as the packet it was built for. */
  lemma FrameRoundTrip(systemId: byte, componentId: byte, sequence: byte, id: nat, payload: seq<byte>)
    requires |payload| <= MAX_PAYLOAD_LENGTH && id < 0x100_0000
    ensures var f := FrameBytes(systemId, componentId, sequence, id, payload);
      AttemptAt(f, StandardSpecs()) == Accepted(PacketFor(systemId, componentId, sequence, id, payload), |f|)
  {
    hide ToNat, ChecksumWithExtra, StandardCrcExtra, ChecksumBytes, CrcExtraFor, StandardSpecs, KnownFields, CoveredBytes;
    var f := FrameBytes(systemId, componentId, sequence, id, payload);
    HeaderOfFrame(systemId, componentId, sequence, id, payload);
    var h := HeaderOf(f).value;
    var covered := CoveredBytes(systemId, componentId, sequence, id, payload);
    var crc := ChecksumWithExtra(covered, StandardCrcExtra(id));
    CoveredTail(systemId, componentId, sequence, id, payload);
    assert f[1..h.ChecksumOffset()] == covered;
    assert f[h.size..h.ChecksumOffset()] == covered[9..] == payload;
    var end := h.ChecksumOffset();
    assert f[end] == ChecksumBytes(crc)[0] && f[end + 1] == ChecksumBytes(crc)[1];
    ReadChecksumBack(crc);
    assert WireChecksum(f, end) == crc;
    StandardExtras(id);
  }

  lemma CoveredTail(systemId: byte, componentId: byte, sequence: byte, id: nat, payload: seq<byte>)
    requires |payload| <= MAX_PAYLOAD_LENGTH
    ensures var covered := CoveredBytes(systemId, componentId, sequence, id, payload);
      |covered| == 9 + |payload| && covered[9..] == payload
  {}

  /** A generated frame byte by byte: start, length, two zero flag bytes, sequence, system, component, id, payload, checksum. */
  lemma GeneratedFrameIs(systemId: byte, componentId: byte, sequence: byte, id: nat, payload: seq<byte>)
      returns (length: byte, id0: byte, id1: byte, id2: byte, crc: bv16)
    requires |payload| <= 255 && id < 0x100_0000
    ensures length as nat == |payload| && id0 as nat + 0x100 * id1 as nat + 0x1_0000 * id2 as nat == id
    ensures var covered := [length, 0, 0, sequence, systemId, componentId, id0, id1, id2] + payload;
      crc == ChecksumWithExtra(covered, StandardCrcExtra(id))
      && FrameBytes(systemId, componentId, sequence, id, payload)
         == [0xfd] + covered + [(crc & 0xff) as byte, (crc >> 8) as byte]
  {
    hide ChecksumWithExtra, StandardCrcExtra, ToByte;
    length := ToByte(|payload|);
    id0, id1, id2 := IdBytes(id)[0], IdBytes(id)[1], IdBytes(id)[2];
    ReadIdBack(id);
    var covered := CoveredBytes(systemId, componentId, sequence, id, payload);
    crc := ChecksumWithExtra(covered, StandardCrcExtra(id));
    assert covered == [length, 0, 0, sequence, systemId, componentId, id0, id1, id2] + payload;
  }
}
