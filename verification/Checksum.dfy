/**
 The MAVLink checksum (pkg/adapters/mavlink/checksum.go): CRC-16/MCRF4XX, that is the
 reflected polynomial 0x8408, initial register 0xffff and no final xor, extended by one
 CRC-extra byte for known messages.

 The byte-at-a-time update the code uses is proved equal to eight steps of the
 bit-serial register, and the checksum is proved to tell apart any two equally long
 byte strings that differ in one place or in two adjacent places.
 */
module Checksum {

  type byte = bv8

  const CRC_INIT: bv16 := 0xffff

  const HEARTBEAT: nat := 0
  const ATTITUDE: nat := 30
  const GLOBAL_POSITION_INT: nat := 33
  const COMMAND_LONG: nat := 76
  const COMMAND_ACK: nat := 77
  const BATTERY_STATUS: nat := 147

  datatype Option<+T> = None | Some(value: T)

  /** The CRC-extra byte of the standard message table, if the message is in it. */
  function StandardCrcExtra(messageId: nat): Option<byte> {
    if messageId == HEARTBEAT then Some(50)
    else if messageId == ATTITUDE then Some(39)
    else if messageId == GLOBAL_POSITION_INT then Some(104)
    else if messageId == COMMAND_LONG then Some(152)
    else if messageId == COMMAND_ACK then Some(143)
    else if messageId == BATTERY_STATUS then Some(154)
    else None
  }

  function Low(crc: bv16): byte {
    (crc & 0xff) as bv8
  }

  function Fold(t: byte): byte {
    t ^ (t << 4)
  }

  function Smear(t: bv16): bv16 {
    (t << 8) ^ (t << 3) ^ (t >> 4)
  }

  /** One byte of checksum, as the code computes it. */
  function CrcAccumulate(b: byte, crc: bv16): bv16 {
    (crc >> 8) ^ Smear(Fold(b ^ Low(crc)) as bv16)
  }

  function CrcOf(data: seq<byte>, crc: bv16): bv16 {
    if data == [] then crc else CrcOf(data[1..], CrcAccumulate(data[0], crc))
  }

  function ChecksumWithExtra(data: seq<byte>, extra: Option<byte>): bv16 {
    match extra
    case Some(b) => CrcAccumulate(b, CrcOf(data, CRC_INIT))
    case None => CrcOf(data, CRC_INIT)
  }

  method CalculateChecksumWithExtra(data: seq<byte>, extra: Option<byte>) returns (crc: bv16)
    ensures crc == ChecksumWithExtra(data, extra)
  {
    crc := CRC_INIT;
    for i := 0 to |data|
      invariant CrcOf(data[i..], crc) == CrcOf(data, CRC_INIT)
    {
      assert data[i..][0] == data[i] && data[i..][1..] == data[i + 1..];
      crc := CrcAccumulate(data[i], crc);
    }
    assert data[|data|..] == [];
    if extra.Some? {
      crc := CrcAccumulate(extra.value, crc);
    }
  }

  // ---------- The bit-serial register ----------

  /** One clock of the reflected 0x8408 shift register. */
  function BitStep(r: bv16): bv16 {
    if r & 1 == 1 then (r >> 1) ^ 0x8408 else r >> 1
  }

  function BitSteps(n: nat, r: bv16): bv16 {
    if n == 0 then r else BitSteps(n - 1, BitStep(r))
  }

  lemma XorShift(r: bv16, s: bv16)
    ensures (r ^ s) >> 1 == (r >> 1) ^ (s >> 1)
  {}

  lemma XorBit(r: bv16, s: bv16)
    ensures (r ^ s) & 1 == (r & 1) ^ (s & 1)
  {}

  lemma BitIsZeroOrOne(r: bv16)
    ensures r & 1 == 0 || r & 1 == 1
  {}

  lemma XorCommutes(a: bv16, b: bv16)
    ensures a ^ b == b ^ a
  {}

  lemma XorSwapsLast(a: bv16, b: bv16, c: bv16)
    ensures (a ^ b) ^ c == (a ^ c) ^ b
  {}

  lemma XorCancels(a: bv16, b: bv16, c: bv16)
    ensures (a ^ c) ^ (b ^ c) == a ^ b
  {}

  lemma EvenEvenStep(r: bv16, s: bv16)
    requires r & 1 == 0 && s & 1 == 0
    ensures BitStep(r ^ s) == BitStep(r) ^ BitStep(s)
  {
    XorBit(r, s);
    XorShift(r, s);
  }

  lemma OddOddStep(r: bv16, s: bv16)
    requires r & 1 == 1 && s & 1 == 1
    ensures BitStep(r ^ s) == BitStep(r) ^ BitStep(s)
  {
    XorBit(r, s);
    XorShift(r, s);
    XorCancels(r >> 1, s >> 1, 0x8408);
  }

  lemma OddEvenStep(r: bv16, s: bv16)
    requires r & 1 == 1 && s & 1 == 0
    ensures BitStep(r ^ s) == BitStep(r) ^ BitStep(s)
  {
    XorBit(r, s);
    XorShift(r, s);
    XorSwapsLast(r >> 1, s >> 1, 0x8408);
  }

  /** Exclusive or under a name, so that proofs about sums need not look at bits. */
  function Xor(a: bv16, b: bv16): bv16 {
    a ^ b
  }

  lemma StepIsLinear(r: bv16, s: bv16)
    ensures BitStep(Xor(r, s)) == Xor(BitStep(r), BitStep(s))
  {
    BitIsZeroOrOne(r);
    BitIsZeroOrOne(s);
    if r & 1 == 1 {
      if s & 1 == 1 {
        OddOddStep(r, s);
      } else {
        OddEvenStep(r, s);
      }
    } else if s & 1 == 1 {
      OddEvenStep(s, r);
      XorCommutes(r, s);
      XorCommutes(BitStep(r), BitStep(s));
    } else {
      EvenEvenStep(r, s);
    }
  }

  lemma {:induction false} StepsAreLinear(n: nat, r: bv16, s: bv16)
    ensures BitSteps(n, Xor(r, s)) == Xor(BitSteps(n, r), BitSteps(n, s))
  {
    hide BitStep, Xor;
    if n > 0 {
      StepIsLinear(r, s);
      StepsAreLinear(n - 1, BitStep(r), BitStep(s));
    }
  }

  lemma EvenStep(r: bv16)
    requires r & 1 == 0
    ensures BitStep(r) == r >> 1
  {}

  lemma EightSteps(r: bv16)
    ensures BitSteps(8, r) ==
      BitStep(BitStep(BitStep(BitStep(BitStep(BitStep(BitStep(BitStep(r))))))))
  {
    hide BitStep;
    var r1 := BitStep(r);
    var r2 := BitStep(r1);
    var r3 := BitStep(r2);
    var r4 := BitStep(r3);
    var r5 := BitStep(r4);
    var r6 := BitStep(r5);
    var r7 := BitStep(r6);
    assert BitSteps(8, r) == BitSteps(7, r1) == BitSteps(6, r2) == BitSteps(5, r3);
    assert BitSteps(5, r3) == BitSteps(4, r4) == BitSteps(3, r5) == BitSteps(2, r6);
    assert BitSteps(2, r6) == BitSteps(1, r7) == BitSteps(0, BitStep(r7));
  }

  lemma LowBitsClear(r: bv16)
    requires r & 0xff == 0
    ensures r & 1 == (r >> 1) & 1 == (r >> 2) & 1 == (r >> 3) & 1 == 0
    ensures (r >> 4) & 1 == (r >> 5) & 1 == (r >> 6) & 1 == (r >> 7) & 1 == 0
  {}

  lemma ShiftsCompose(r: bv16)
    ensures (r >> 1) >> 1 == r >> 2 && (r >> 2) >> 1 == r >> 3 && (r >> 3) >> 1 == r >> 4
    ensures (r >> 4) >> 1 == r >> 5 && (r >> 5) >> 1 == r >> 6 && (r >> 6) >> 1 == r >> 7
    ensures (r >> 7) >> 1 == r >> 8
  {}

  /** Shifting a clear low byte out of the register never applies the polynomial. */
  lemma HighByteShiftsDown(r: bv16)
    requires r & 0xff == 0
    ensures BitSteps(8, r) == r >> 8
  {
    hide BitStep;
    EightSteps(r);
    LowBitsClear(r);
    ShiftsCompose(r);
    EvenStep(r);
    EvenStep(r >> 1);
    EvenStep(r >> 2);
    EvenStep(r >> 3);
    EvenStep(r >> 4);
    EvenStep(r >> 5);
    EvenStep(r >> 6);
    EvenStep(r >> 7);
  }

  // ---------- The table-free update agrees with the register ----------

  function Xor8(a: byte, b: byte): byte {
    a ^ b
  }

  function Spread(x: byte): bv16 {
    Smear(Fold(x) as bv16)
  }

  lemma FoldIsLinear(x: byte, y: byte)
    ensures Fold(Xor8(x, y)) == Xor8(Fold(x), Fold(y))
  {}

  lemma WideningIsLinear(x: byte, y: byte)
    ensures Xor8(x, y) as bv16 == Xor(x as bv16, y as bv16)
  {}

  lemma ShiftLeft8IsLinear(x: bv16, y: bv16)
    ensures Xor(x, y) << 8 == Xor(x << 8, y << 8)
  {}

  lemma ShiftLeft3IsLinear(x: bv16, y: bv16)
    ensures Xor(x, y) << 3 == Xor(x << 3, y << 3)
  {}

  lemma ShiftRight4IsLinear(x: bv16, y: bv16)
    ensures Xor(x, y) >> 4 == Xor(x >> 4, y >> 4)
  {}

  lemma SumAssociates(a: bv16, b: bv16, c: bv16)
    ensures Xor(Xor(a, b), c) == Xor(a, Xor(b, c))
  {}

  lemma SumCommutes(a: bv16, b: bv16)
    ensures Xor(a, b) == Xor(b, a)
  {}

  lemma XorRegroups(a: bv16, b: bv16, c: bv16, d: bv16)
    ensures Xor(Xor(a, b), Xor(c, d)) == Xor(Xor(a, c), Xor(b, d))
  {
    hide Xor;
    calc {
      Xor(Xor(a, b), Xor(c, d));
      { SumAssociates(a, b, Xor(c, d)); }
      Xor(a, Xor(b, Xor(c, d)));
      { SumAssociates(b, c, d); SumCommutes(b, c); SumAssociates(c, b, d); }
      Xor(a, Xor(c, Xor(b, d)));
      { SumAssociates(a, c, Xor(b, d)); }
      Xor(Xor(a, c), Xor(b, d));
    }
  }

  lemma SmearAsSum(t: bv16)
    ensures Smear(t) == Xor(Xor(t << 8, t << 3), t >> 4)
  {}

  lemma SmearIsLinear(x: bv16, y: bv16)
    ensures Smear(Xor(x, y)) == Xor(Smear(x), Smear(y))
  {
    hide Smear, Xor;
    SmearAsSum(x);
    SmearAsSum(y);
    SmearAsSum(Xor(x, y));
    ShiftLeft8IsLinear(x, y);
    ShiftLeft3IsLinear(x, y);
    ShiftRight4IsLinear(x, y);
    XorRegroups(x << 8, y << 8, x << 3, y << 3);
    XorRegroups(Xor(x << 8, x << 3), Xor(y << 8, y << 3), x >> 4, y >> 4);
  }

  lemma SpreadIsLinear(x: byte, y: byte)
    ensures Spread(Xor8(x, y)) == Xor(Spread(x), Spread(y))
  {
    hide Fold, Smear, Xor, Xor8;
    FoldIsLinear(x, y);
    WideningIsLinear(Fold(x), Fold(y));
    SmearIsLinear(Fold(x) as bv16, Fold(y) as bv16);
  }

  /** The update and eight register steps agree on a byte. */
  ghost predicate Agree(x: byte) {
    BitSteps(8, x as bv16) == Spread(x)
  }

  lemma AgreeIsClosedUnderXor(x: byte, y: byte)
    requires Agree(x) && Agree(y)
    ensures Agree(Xor8(x, y))
  {
    hide Spread, BitSteps, Xor, Xor8;
    WideningIsLinear(x, y);
    StepsAreLinear(8, x as bv16, y as bv16);
    SpreadIsLinear(x, y);
  }

  lemma AgreeOnLowPowers()
    ensures Agree(0) && Agree(1) && Agree(2) && Agree(4) && Agree(8)
  {
    EightSteps(0);
    EightSteps(1);
    EightSteps(2);
    EightSteps(4);
    EightSteps(8);
  }

  lemma AgreeOnHighPowers()
    ensures Agree(16) && Agree(32) && Agree(64) && Agree(128)
  {
    EightSteps(16);
    EightSteps(32);
    EightSteps(64);
    EightSteps(128);
  }

  lemma BitsOfByte(x: byte)
    ensures x == Xor8(
      Xor8(Xor8(x & 1, x & 2), Xor8(x & 4, x & 8)),
      Xor8(Xor8(x & 16, x & 32), Xor8(x & 64, x & 128)))
    ensures x & 1 in {0, 1} && x & 2 in {0, 2} && x & 4 in {0, 4} && x & 8 in {0, 8}
    ensures x & 16 in {0, 16} && x & 32 in {0, 32} && x & 64 in {0, 64} && x & 128 in {0, 128}
  {}

  lemma AgreeOnBytes(x: byte)
    ensures Agree(x)
  {
    hide Agree, Xor8;
    BitsOfByte(x);
    AgreeOnLowPowers();
    AgreeOnHighPowers();
    AgreeIsClosedUnderXor(x & 1, x & 2);
    AgreeIsClosedUnderXor(x & 4, x & 8);
    AgreeIsClosedUnderXor(x & 16, x & 32);
    AgreeIsClosedUnderXor(x & 64, x & 128);
    AgreeIsClosedUnderXor(Xor8(x & 1, x & 2), Xor8(x & 4, x & 8));
    AgreeIsClosedUnderXor(Xor8(x & 16, x & 32), Xor8(x & 64, x & 128));
    AgreeIsClosedUnderXor(
      Xor8(Xor8(x & 1, x & 2), Xor8(x & 4, x & 8)),
      Xor8(Xor8(x & 16, x & 32), Xor8(x & 64, x & 128)));
  }

  lemma RegisterSplits(r: bv16, b: byte)
    ensures r ^ (b as bv16) == Xor(r & 0xff00, (b ^ Low(r)) as bv16)
    ensures (r & 0xff00) & 0xff == 0 && (r & 0xff00) >> 8 == r >> 8
  {}

  lemma AccumulateAsSum(b: byte, crc: bv16)
    ensures CrcAccumulate(b, crc) == Xor(crc >> 8, Spread(b ^ Low(crc)))
  {
    hide Fold, Smear, Low;
  }

  /** The code's update is eight clocks of the 0x8408 register fed with the byte. */
  lemma AccumulateIsBitSerial(b: byte, crc: bv16)
    ensures CrcAccumulate(b, crc) == BitSteps(8, crc ^ (b as bv16))
  {
    hide BitSteps, Spread, Low, Xor, CrcAccumulate;
    RegisterSplits(crc, b);
    StepsAreLinear(8, crc & 0xff00, (b ^ Low(crc)) as bv16);
    HighByteShiftsDown(crc & 0xff00);
    AgreeOnBytes(b ^ Low(crc));
    AccumulateAsSum(b, crc);
  }

  // ---------- What the checksum can tell apart ----------

  lemma SpreadTopIsInjective(x: byte, y: byte)
    requires Spread(x) >> 8 == Spread(y) >> 8
    ensures x == y
  {}

  lemma TopOfSum(r: bv16, t: bv16)
    ensures Xor(r >> 8, t) >> 8 == t >> 8
  {}

  lemma SumCancels(a: bv16, b: bv16, t: bv16)
    requires Xor(a, t) == Xor(b, t)
    ensures a == b
  {}

  /** Two equal updates come from the same index byte and the same high byte. */
  lemma AccumulateEqual(b: byte, r: bv16, d: byte, s: bv16)
    requires CrcAccumulate(b, r) == CrcAccumulate(d, s)
    ensures b ^ Low(r) == d ^ Low(s) && r >> 8 == s >> 8
  {
    hide CrcAccumulate, Spread, Low, Xor;
    var x, y := b ^ Low(r), d ^ Low(s);
    AccumulateAsSum(b, r);
    AccumulateAsSum(d, s);
    TopOfSum(r, Spread(x));
    TopOfSum(s, Spread(y));
    SpreadTopIsInjective(x, y);
    SumCancels(r >> 8, s >> 8, Spread(x));
  }

  lemma SameIndexSameByte(r: bv16, b: byte, d: byte)
    requires b ^ Low(r) == d ^ Low(r)
    ensures b == d
  {}

  lemma SameIndexSameRegister(b: byte, r: bv16, s: bv16)
    requires b ^ Low(r) == b ^ Low(s) && r >> 8 == s >> 8
    ensures r == s
  {}

  lemma AccumulateInjectiveInByte(b: byte, d: byte, crc: bv16)
    requires CrcAccumulate(b, crc) == CrcAccumulate(d, crc)
    ensures b == d
  {
    AccumulateEqual(b, crc, d, crc);
    SameIndexSameByte(crc, b, d);
  }

  lemma AccumulateInjectiveInRegister(b: byte, r: bv16, s: bv16)
    requires CrcAccumulate(b, r) == CrcAccumulate(b, s)
    ensures r == s
  {
    AccumulateEqual(b, r, b, s);
    SameIndexSameRegister(b, r, s);
  }

  lemma HighByteOfUpdate(a: byte, c: byte, crc: bv16)
    requires CrcAccumulate(a, crc) >> 8 == CrcAccumulate(c, crc) >> 8
    ensures a == c
  {
    hide CrcAccumulate, Spread, Low, Xor;
    AccumulateAsSum(a, crc);
    AccumulateAsSum(c, crc);
    TopOfSum(crc, Spread(a ^ Low(crc)));
    TopOfSum(crc, Spread(c ^ Low(crc)));
    SpreadTopIsInjective(a ^ Low(crc), c ^ Low(crc));
    SameIndexSameByte(crc, a, c);
  }

  /** Two successive bytes can be read back from the register they lead to. */
  lemma AccumulateInjectiveInPair(a: byte, b: byte, c: byte, d: byte, crc: bv16)
    requires CrcAccumulate(b, CrcAccumulate(a, crc)) == CrcAccumulate(d, CrcAccumulate(c, crc))
    ensures a == c && b == d
  {
    hide CrcAccumulate;
    AccumulateEqual(b, CrcAccumulate(a, crc), d, CrcAccumulate(c, crc));
    HighByteOfUpdate(a, c, crc);
    AccumulateInjectiveInByte(b, d, CrcAccumulate(a, crc));
  }

  lemma {:induction false} CrcOfAppend(s: seq<byte>, t: seq<byte>, crc: bv16)
    ensures CrcOf(s + t, crc) == CrcOf(t, CrcOf(s, crc))
  {
    hide CrcAccumulate;
    if s == [] {
      assert s + t == t;
    } else {
      assert (s + t)[1..] == s[1..] + t;
      CrcOfAppend(s[1..], t, CrcAccumulate(s[0], crc));
    }
  }

  lemma {:induction false} CrcOfInjectiveInRegister(data: seq<byte>, r: bv16, s: bv16)
    requires CrcOf(data, r) == CrcOf(data, s)
    ensures r == s
  {
    hide CrcAccumulate;
    if data != [] {
      CrcOfInjectiveInRegister(data[1..], CrcAccumulate(data[0], r), CrcAccumulate(data[0], s));
      AccumulateInjectiveInRegister(data[0], r, s);
    }
  }

  /** s and t have one length and differ at most at positions i and i + 1. */
  predicate DifferAtMostAtPair(s: seq<byte>, t: seq<byte>, i: nat) {
    |s| == |t| && forall k :: 0 <= k < |s| && k != i && k != i + 1 ==> s[k] == t[k]
  }

  lemma CrcOfOne(a: byte, crc: bv16)
    ensures CrcOf([a], crc) == CrcAccumulate(a, crc)
  {
    hide CrcAccumulate;
    assert [a][1..] == [];
  }

  lemma CrcOfTwo(a: byte, b: byte, crc: bv16)
    ensures CrcOf([a, b], crc) == CrcAccumulate(b, CrcAccumulate(a, crc))
  {
    hide CrcAccumulate;
    assert [a, b] == [a] + [b];
    CrcOfAppend([a], [b], crc);
    CrcOfOne(a, crc);
    CrcOfOne(b, CrcAccumulate(a, crc));
  }

  lemma ShortCrcIsInjective(s: seq<byte>, t: seq<byte>, crc: bv16)
    requires |s| == |t| <= 2
    requires CrcOf(s, crc) == CrcOf(t, crc)
    ensures s == t
  {
    hide CrcAccumulate;
    if |s| == 1 {
      assert s == [s[0]] && t == [t[0]];
      CrcOfOne(s[0], crc);
      CrcOfOne(t[0], crc);
      AccumulateInjectiveInByte(s[0], t[0], crc);
    } else if |s| == 2 {
      assert s == [s[0], s[1]] && t == [t[0], t[1]];
      CrcOfTwo(s[0], s[1], crc);
      CrcOfTwo(t[0], t[1], crc);
      AccumulateInjectiveInPair(s[0], s[1], t[0], t[1], crc);
    }
  }

  lemma CrcOfBurst(pre: seq<byte>, s: seq<byte>, t: seq<byte>, post: seq<byte>, crc: bv16)
    requires |s| == |t| <= 2
    requires CrcOf(pre + s + post, crc) == CrcOf(pre + t + post, crc)
    ensures s == t
  {
    hide CrcAccumulate, CrcOf;
    var r := CrcOf(pre, crc);
    CrcOfAppend(pre + s, post, crc);
    CrcOfAppend(pre, s, crc);
    CrcOfAppend(pre + t, post, crc);
    CrcOfAppend(pre, t, crc);
    CrcOfInjectiveInRegister(post, CrcOf(s, r), CrcOf(t, r));
    ShortCrcIsInjective(s, t, r);
  }

  /** Equal checksums of strings that differ at most at two neighbouring places mean equal strings. */
  lemma ChecksumSeparates(s: seq<byte>, t: seq<byte>, i: nat, extra: Option<byte>)
    requires DifferAtMostAtPair(s, t, i)
    requires ChecksumWithExtra(s, extra) == ChecksumWithExtra(t, extra)
    ensures s == t
  {
    hide CrcAccumulate;
    if extra.Some? {
      AccumulateInjectiveInRegister(extra.value, CrcOf(s, CRC_INIT), CrcOf(t, CRC_INIT));
    }
    var lo := if i < |s| then i else |s|;
    var hi := if i + 2 < |s| then i + 2 else |s|;
    assert s == s[..lo] + s[lo..hi] + s[hi..];
    assert t == t[..lo] + t[lo..hi] + t[hi..];
    assert s[..lo] == t[..lo] && s[hi..] == t[hi..];
    CrcOfBurst(s[..lo], s[lo..hi], t[lo..hi], s[hi..], CRC_INIT);
  }

  /** The check value of CRC-16/MCRF4XX: the checksum of the digits 1 to 9. */
  lemma CheckValue()
    ensures ChecksumWithExtra([0x31, 0x32, 0x33, 0x34, 0x35, 0x36, 0x37, 0x38, 0x39], None) == 0x6f91
  {
    var digits: seq<byte> := [0x31, 0x32, 0x33, 0x34, 0x35, 0x36, 0x37, 0x38, 0x39];
    var registers: seq<bv16> := [0xffff, 0x2f8d, 0x4d53, 0x634b, 0x8b13, 0x44bf, 0x198d, 0x1ac8, 0xf795, 0x6f91];
    assert forall k :: 0 <= k < 9 ==> CrcAccumulate(digits[k], registers[k]) == registers[k + 1];
    FoldedThrough(digits, registers, 0);
    assert digits[0..] == digits;
  }

  /** Registers that follow from one another byte by byte end in the checksum. */
  lemma {:induction false} FoldedThrough(data: seq<byte>, registers: seq<bv16>, k: nat)
    requires k <= |data| && |registers| == |data| + 1
    requires forall i :: 0 <= i < |data| ==> CrcAccumulate(data[i], registers[i]) == registers[i + 1]
    ensures CrcOf(data[k..], registers[k]) == registers[|data|]
    decreases |data| - k
  {
    hide CrcAccumulate;
    if k < |data| {
      FoldedThrough(data, registers, k + 1);
      assert data[k..][1..] == data[k + 1..];
    }
  }
}
