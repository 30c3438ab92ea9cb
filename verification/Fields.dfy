/**
 Message specifications and field decoding (pkg/adapters/mavlink/parser.go). Field values
 are read little-endian; a signed field is the two's complement reading of its bytes; a
 float field is kept as its IEEE bit pattern.
 */
module Fields {
  import opened Checksum

  type uint8 = n: nat | n < 0x100
  type uint16 = n: nat | n < 0x1_0000
  type uint32 = n: nat | n < 0x1_0000_0000
  type uint64 = n: nat | n < 0x1_0000_0000_0000_0000
  type int8 = n: int | -0x80 <= n < 0x80
  type int16 = n: int | -0x8000 <= n < 0x8000
  type int32 = n: int | -0x8000_0000 <= n < 0x8000_0000
  type int64 = n: int | -0x8000_0000_0000_0000 <= n < 0x8000_0000_0000_0000

  datatype FieldType =
    | TUint8 | TInt8 | TUint16 | TInt16 | TUint32 | TInt32 | TUint64 | TInt64
    | TFloat | TDouble | TChar | TUnsupported

  datatype FieldSpec = FieldSpec(name: string, kind: FieldType, size: nat, offset: nat, arraySize: nat)

  datatype MessageSpec = MessageSpec(id: nat, name: string, payloadSize: nat, crcExtra: byte, fields: seq<FieldSpec>)

  datatype FieldValue =
    | Uint8(u8: uint8)
    | Int8(i8: int8)
    | Uint16(u16: uint16)
    | Int16(i16: int16)
    | Uint32(u32: uint32)
    | Int32(i32: int32)
    | Uint64(u64: uint64)
    | Int64(i64: int64)
    | Float32(bits32: uint32)
    | Float64(bits64: uint64)
    | Text(text: seq<byte>)
    | Uint8Array(bytes: seq<uint8>)
    | Uint16Array(words: seq<uint16>)

  function ToNat(b: byte): (n: uint8) {
    b as nat
  }

  lemma NextByte(b: byte)
    requires b < 255
    ensures ToNat(b + 1) == ToNat(b) + 1
  {}

  /** The byte with the given value, counted up from zero so that no cast has to be trusted. */
  function ToByte(n: uint8): (b: byte)
    ensures ToNat(b) == n
  {
    if n == 0 then 0
    else
      var before := ToByte(n - 1);
      NextByte(before);
      before + 1
  }

  function Le16(data: seq<byte>): uint16
    requires |data| >= 2
  {
    ToNat(data[0]) + 0x100 * ToNat(data[1])
  }

  function Le32(data: seq<byte>): uint32
    requires |data| >= 4
  {
    ToNat(data[0]) + 0x100 * ToNat(data[1]) + 0x1_0000 * ToNat(data[2]) + 0x100_0000 * ToNat(data[3])
  }

  function Le64(data: seq<byte>): uint64
    requires |data| >= 8
  {
    Le32(data) + 0x1_0000_0000 * Le32(data[4..])
  }

  function ToInt8(n: uint8): int8 {
    if n < 0x80 then n else n - 0x100
  }

  function ToInt16(n: uint16): int16 {
    if n < 0x8000 then n else n - 0x1_0000
  }

  function ToInt32(n: uint32): int32 {
    if n < 0x8000_0000 then n else n - 0x1_0000_0000
  }

  function ToInt64(n: uint64): int64 {
    if n < 0x8000_0000_0000_0000 then n else n - 0x1_0000_0000_0000_0000
  }

  /** The prefix of a char field before its first zero byte. */
  function BeforeZero(data: seq<byte>): (text: seq<byte>)
    ensures text <= data && 0 !in text
    ensures text == data || data[|text|] == 0
  {
    if data == [] || data[0] == 0 then [] else [data[0]] + BeforeZero(data[1..])
  }

  function ParseArrayField(data: seq<byte>, field: FieldSpec): Option<FieldValue> {
    match field.kind
    case TUint8 =>
      if |data| < field.arraySize then None
      else Some(Uint8Array(seq(field.arraySize, i requires 0 <= i < field.arraySize => ToNat(data[i]))))
    case TUint16 =>
      if |data| < 2 * field.arraySize then None
      else Some(Uint16Array(seq(field.arraySize, i requires 0 <= i < field.arraySize => Le16(data[2 * i..2 * i + 2]))))
    case _ => None
  }

  function ParseFieldValue(data: seq<byte>, field: FieldSpec): Option<FieldValue> {
    if field.arraySize > 1 then ParseArrayField(data, field) else
    match field.kind
    case TUint8 => if |data| < 1 then None else Some(Uint8(ToNat(data[0])))
    case TInt8 => if |data| < 1 then None else Some(Int8(ToInt8(ToNat(data[0]))))
    case TUint16 => if |data| < 2 then None else Some(Uint16(Le16(data)))
    case TInt16 => if |data| < 2 then None else Some(Int16(ToInt16(Le16(data))))
    case TUint32 => if |data| < 4 then None else Some(Uint32(Le32(data)))
    case TInt32 => if |data| < 4 then None else Some(Int32(ToInt32(Le32(data))))
    case TUint64 => if |data| < 8 then None else Some(Uint64(Le64(data)))
    case TInt64 => if |data| < 8 then None else Some(Int64(ToInt64(Le64(data))))
    case TFloat => if |data| < 4 then None else Some(Float32(Le32(data)))
    case TDouble => if |data| < 8 then None else Some(Float64(Le64(data)))
    case TChar => Some(Text(BeforeZero(data)))
    case TUnsupported => None
  }

  /** Two's complement: numbers with the sign bit set stand for those a full turn lower. */
  predicate IsSigned(value: int, n: nat, signBit: nat) {
    value == if n >= signBit then n - 2 * signBit else n
  }

  /** The number that the first bytes stand for, the least significant first. */
  function LittleEndian(data: seq<byte>, width: nat): nat
    requires width in {1, 2, 4, 8} && width <= |data|
  {
    data[0] as nat
    + (if width >= 2 then 0x100 * data[1] as nat else 0)
    + (if width >= 4 then 0x1_0000 * data[2] as nat + 0x100_0000 * data[3] as nat else 0)
    + (if width == 8 then 0x1_0000_0000 * data[4] as nat + 0x100_0000_0000 * data[5] as nat
                          + 0x1_0000_0000_0000 * data[6] as nat + 0x100_0000_0000_0000 * data[7] as nat else 0)
  }

  /** A scalar needs all of its bytes, and is the number they stand for, signed if its type is. */
  lemma ScalarsAreRead(data: seq<byte>, field: FieldSpec)
    requires field.arraySize <= 1
    ensures var v := ParseFieldValue(data, field);
      match field.kind
      case TUint8 => if |data| < 1 then v == None else v.Some? && v.value.Uint8? && v.value.u8 == LittleEndian(data, 1)
      case TInt8 => if |data| < 1 then v == None else v.Some? && v.value.Int8? && IsSigned(v.value.i8, LittleEndian(data, 1), 0x80)
      case TUint16 => if |data| < 2 then v == None else v.Some? && v.value.Uint16? && v.value.u16 == LittleEndian(data, 2)
      case TInt16 =>
        if |data| < 2 then v == None else v.Some? && v.value.Int16? && IsSigned(v.value.i16, LittleEndian(data, 2), 0x8000)
      case TUint32 => if |data| < 4 then v == None else v.Some? && v.value.Uint32? && v.value.u32 == LittleEndian(data, 4)
      case TInt32 =>
        if |data| < 4 then v == None else v.Some? && v.value.Int32? && IsSigned(v.value.i32, LittleEndian(data, 4), 0x8000_0000)
      case TUint64 => if |data| < 8 then v == None else v.Some? && v.value.Uint64? && v.value.u64 == LittleEndian(data, 8)
      case TInt64 =>
        if |data| < 8 then v == None
        else v.Some? && v.value.Int64? && IsSigned(v.value.i64, LittleEndian(data, 8), 0x8000_0000_0000_0000)
      case TFloat => if |data| < 4 then v == None else v.Some? && v.value.Float32? && v.value.bits32 == LittleEndian(data, 4)
      case TDouble => if |data| < 8 then v == None else v.Some? && v.value.Float64? && v.value.bits64 == LittleEndian(data, 8)
      case TChar => v.Some? && v.value.Text?
      case TUnsupported => v == None
  {
    hide ToNat, BeforeZero;
    if |data| >= 8 {
      LongIsRead(data);
    } else if |data| >= 4 {
      WordIsRead(data);
    } else {
      ShortIsRead(data);
    }
  }

  lemma ShortIsRead(data: seq<byte>)
    ensures |data| >= 1 ==> ToNat(data[0]) == LittleEndian(data, 1)
    ensures |data| >= 2 ==> Le16(data) == LittleEndian(data, 2)
  {}

  lemma WordIsRead(data: seq<byte>)
    requires |data| >= 4
    ensures ToNat(data[0]) == LittleEndian(data, 1) && Le16(data) == LittleEndian(data, 2) && Le32(data) == LittleEndian(data, 4)
  {}

  lemma LongIsRead(data: seq<byte>)
    requires |data| >= 8
    ensures ToNat(data[0]) == LittleEndian(data, 1) && Le16(data) == LittleEndian(data, 2)
    ensures Le32(data) == LittleEndian(data, 4) && Le64(data) == LittleEndian(data, 8)
  {
    var rest := data[4..];
    assert rest[0] == data[4] && rest[1] == data[5] && rest[2] == data[6] && rest[3] == data[7];
  }

  /** The text of a char field ends at its first zero byte. */
  lemma TextIsRead(data: seq<byte>, field: FieldSpec)
    requires field.arraySize <= 1 && field.kind == TChar
    ensures var v := ParseFieldValue(data, field);
      v.Some? && v.value.Text? && v.value.text <= data && 0 !in v.value.text
      && (v.value.text == data || data[|v.value.text|] == 0)
  {
    var text := BeforeZero(data);
  }

  /** Arrays of bytes and of words are read element by element; others, and short ones, are not read at all. */
  lemma ArraysAreRead(data: seq<byte>, field: FieldSpec)
    requires field.arraySize > 1
    ensures var v := ParseFieldValue(data, field);
      match field.kind
      case TUint8 =>
        if |data| < field.arraySize then v == None
        else v.Some? && v.value.Uint8Array? && |v.value.bytes| == field.arraySize
             && forall i :: 0 <= i < field.arraySize ==> v.value.bytes[i] == data[i] as nat
      case TUint16 =>
        if |data| < 2 * field.arraySize then v == None
        else v.Some? && v.value.Uint16Array? && |v.value.words| == field.arraySize
             && forall i :: 0 <= i < field.arraySize ==> v.value.words[i] == data[2 * i] as nat + 0x100 * data[2 * i + 1] as nat
      case _ => v == None
  {
    if field.kind == TUint16 && |data| >= 2 * field.arraySize {
      var words := ParseFieldValue(data, field).value.words;
      forall i | 0 <= i < field.arraySize
        ensures words[i] == data[2 * i] as nat + 0x100 * data[2 * i + 1] as nat
      {
        assert data[2 * i..2 * i + 2][0] == data[2 * i] && data[2 * i..2 * i + 2][1] == data[2 * i + 1];
      }
    }
  }

  /** The value of one field, absent when the payload ends before the field does. */
  function FieldAt(payload: seq<byte>, field: FieldSpec): Option<FieldValue> {
    if field.offset + field.size > |payload| then None
    else ParseFieldValue(payload[field.offset..field.offset + field.size], field)
  }

  function DecodeFields(fields: seq<FieldSpec>, payload: seq<byte>): map<string, FieldValue> {
    if fields == [] then map[] else
    var field := fields[|fields| - 1];
    var earlier := DecodeFields(fields[..|fields| - 1], payload);
    match FieldAt(payload, field)
    case Some(value) => earlier[field.name := value]
    case None => earlier
  }

  method ParseFields(fields: seq<FieldSpec>, payload: seq<byte>) returns (values: map<string, FieldValue>)
    ensures values == DecodeFields(fields, payload)
  {
    values := map[];
    for i := 0 to |fields|
      invariant values == DecodeFields(fields[..i], payload)
    {
      assert fields[..i + 1][..i] == fields[..i];
      var field := fields[i];
      var end := field.offset + field.size;
      if end > |payload| {
        continue;
      }
      var value := ParseFieldValue(payload[field.offset..end], field);
      if value.None? {
        continue;
      }
      values := values[field.name := value.value];
    }
    assert fields[..|fields|] == fields;
  }

  predicate DistinctNames(fields: seq<FieldSpec>) {
    forall i, j :: 0 <= i < j < |fields| ==> fields[i].name != fields[j].name
  }

  /** A decoded field is present exactly when the payload reaches its end and its type decodes. */
  lemma {:induction false} DecodedField(fields: seq<FieldSpec>, payload: seq<byte>, i: nat)
    requires DistinctNames(fields) && i < |fields|
    ensures FieldAt(payload, fields[i]).Some? ==>
      fields[i].name in DecodeFields(fields, payload) &&
      DecodeFields(fields, payload)[fields[i].name] == FieldAt(payload, fields[i]).value
    ensures FieldAt(payload, fields[i]).None? ==> fields[i].name !in DecodeFields(fields, payload)
  {
    var init := fields[..|fields| - 1];
    if i < |init| {
      DecodedField(init, payload, i);
    } else {
      OnlyNamedFields(init, payload, fields[i].name);
    }
  }

  lemma {:induction false} OnlyNamedFields(fields: seq<FieldSpec>, payload: seq<byte>, name: string)
    requires forall i :: 0 <= i < |fields| ==> fields[i].name != name
    ensures name !in DecodeFields(fields, payload)
  {
    if fields != [] {
      OnlyNamedFields(fields[..|fields| - 1], payload, name);
    }
  }

  // ---------- The standard message table ----------

  function Scalar(name: string, kind: FieldType, size: nat, offset: nat): FieldSpec {
    FieldSpec(name, kind, size, offset, 0)
  }

  const HEARTBEAT_FIELDS: seq<FieldSpec> := [
    Scalar("custom_mode", TUint32, 4, 0),
    Scalar("type", TUint8, 1, 4),
    Scalar("autopilot", TUint8, 1, 5),
    Scalar("base_mode", TUint8, 1, 6),
    Scalar("system_status", TUint8, 1, 7),
    Scalar("mavlink_version", TUint8, 1, 8)
  ]

  const GLOBAL_POSITION_FIELDS: seq<FieldSpec> := [
    Scalar("time_boot_ms", TUint32, 4, 0),
    Scalar("lat", TInt32, 4, 4),
    Scalar("lon", TInt32, 4, 8),
    Scalar("alt", TInt32, 4, 12),
    Scalar("relative_alt", TInt32, 4, 16),
    Scalar("vx", TInt16, 2, 20),
    Scalar("vy", TInt16, 2, 22),
    Scalar("vz", TInt16, 2, 24),
    Scalar("hdg", TUint16, 2, 26)
  ]

  const ATTITUDE_FIELDS: seq<FieldSpec> := [
    Scalar("time_boot_ms", TUint32, 4, 0),
    Scalar("roll", TFloat, 4, 4),
    Scalar("pitch", TFloat, 4, 8),
    Scalar("yaw", TFloat, 4, 12),
    Scalar("rollspeed", TFloat, 4, 16),
    Scalar("pitchspeed", TFloat, 4, 20),
    Scalar("yawspeed", TFloat, 4, 24)
  ]

  const COMMAND_LONG_FIELDS: seq<FieldSpec> := [
    Scalar("param1", TFloat, 4, 0),
    Scalar("param2", TFloat, 4, 4),
    Scalar("param3", TFloat, 4, 8),
    Scalar("param4", TFloat, 4, 12),
    Scalar("param5", TFloat, 4, 16),
    Scalar("param6", TFloat, 4, 20),
    Scalar("param7", TFloat, 4, 24),
    Scalar("command", TUint16, 2, 28),
    Scalar("target_system", TUint8, 1, 30),
    Scalar("target_component", TUint8, 1, 31),
    Scalar("confirmation", TUint8, 1, 32)
  ]

  const COMMAND_ACK_FIELDS: seq<FieldSpec> := [
    Scalar("command", TUint16, 2, 0),
    Scalar("result", TUint8, 1, 2),
    Scalar("progress", TUint8, 1, 3),
    Scalar("result_param2", TInt32, 4, 4),
    Scalar("target_system", TUint8, 1, 8),
    Scalar("target_component", TUint8, 1, 9)
  ]

  const BATTERY_FIELDS: seq<FieldSpec> := [
    Scalar("current_consumed", TInt32, 4, 0),
    Scalar("energy_consumed", TInt32, 4, 4),
    Scalar("temperature", TInt16, 2, 8),
    FieldSpec("voltages", TUint16, 20, 10, 10),
    Scalar("current_battery", TInt16, 2, 30),
    Scalar("id", TUint8, 1, 32),
    Scalar("battery_function", TUint8, 1, 33),
    Scalar("type", TUint8, 1, 34),
    Scalar("battery_remaining", TInt8, 1, 35)
  ]

  function StandardSpecs(): map<nat, MessageSpec> {
    map[
      HEARTBEAT := MessageSpec(HEARTBEAT, "HEARTBEAT", 9, 50, HEARTBEAT_FIELDS),
      GLOBAL_POSITION_INT := MessageSpec(GLOBAL_POSITION_INT, "GLOBAL_POSITION_INT", 28, 104, GLOBAL_POSITION_FIELDS),
      ATTITUDE := MessageSpec(ATTITUDE, "ATTITUDE", 28, 39, ATTITUDE_FIELDS),
      COMMAND_LONG := MessageSpec(COMMAND_LONG, "COMMAND_LONG", 33, 152, COMMAND_LONG_FIELDS),
      COMMAND_ACK := MessageSpec(COMMAND_ACK, "COMMAND_ACK", 10, 143, COMMAND_ACK_FIELDS),
      BATTERY_STATUS := MessageSpec(BATTERY_STATUS, "BATTERY_STATUS", 36, 154, BATTERY_FIELDS)
    ]
  }
}
