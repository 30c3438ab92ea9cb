/**
 The raw lane (pkg/adapters/mavlink/raw_lane.go; the cot, adsb and sapient lanes are the
 same algorithm): a FIFO of captured frames under a bound on records and one on bytes.
 Frames are kept as arrays, so that copies and the caller's own arrays can be told apart.
 */
module RawLane {
  import opened Checksum
  import opened Frames
  import opened Tokens

  const DEFAULT_MAX_RECORDS := 1024
  const DEFAULT_MAX_BYTES := 8 * 1024 * 1024

  /** What a record says about the packet in its frame; all zero if there was none. */
  datatype PacketInfo = PacketInfo(version: nat, sequence: byte, systemId: byte, componentId: byte, messageId: nat, checksum: bv16)

  function InfoOf(p: Option<Packet>): PacketInfo {
    match p
    case None => PacketInfo(0, 0, 0, 0, 0, 0)
    case Some(q) => PacketInfo(q.version, q.sequence, q.systemId, q.componentId, q.messageId, q.checksum)
  }

  datatype RawRecord = RawRecord(ref: string, receivedAt: int, info: PacketInfo, frame: array<byte>)

  /** A record with the bytes of its frame in place of the array. */
  datatype Entry = Entry(ref: string, receivedAt: int, info: PacketInfo, bytes: seq<byte>)

  datatype Capture = Captured(record: RawRecord) | EmptyFrame | OversizedFrame

  function EntryOf(r: RawRecord): Entry
    reads r.frame
  {
    Entry(r.ref, r.receivedAt, r.info, r.frame[..])
  }

  // ---------- Source names ----------

  /** The Unicode tables that a source name is read with: letters and digits, and lower case. */
  datatype Unicode = Unicode(isLetterOrDigit: char -> bool, lower: char -> char)

  predicate IsKept(u: Unicode, c: char) {
    u.isLetterOrDigit(c) || c == '.' || c == '_'
  }

  /** Kept characters in lower case, each run of others a dash. */
  function Cleaned(u: Unicode, s: string, lastDash: bool): string {
    if s == "" then ""
    else if IsKept(u, s[0]) then [u.lower(s[0])] + Cleaned(u, s[1..], false)
    else if lastDash then Cleaned(u, s[1..], true)
    else ['-'] + Cleaned(u, s[1..], true)
  }

  function SourceToken(u: Unicode, source: string): string {
    var token := TrimDashes(Cleaned(u, source, false));
    if token == "" then "default" else token
  }

  method SanitizeSource(u: Unicode, source: string) returns (token: string)
    ensures token == SourceToken(u, source)
  {
    hide TrimDashes, Cleaned;
    var builder := "";
    var lastDash := false;
    assert source[0..] == source;
    for i := 0 to |source|
      invariant builder + Cleaned(u, source[i..], lastDash) == Cleaned(u, source, false)
    {
      CleanedStep(u, source, i, lastDash);
      var c := source[i];
      if u.isLetterOrDigit(c) || c == '.' || c == '_' {
        builder := builder + [u.lower(source[i])];
        lastDash := false;
        continue;
      }
      if !lastDash {
        builder := builder + ['-'];
        lastDash := true;
      }
    }
    CleanedEnd(u, source, lastDash);
    assert builder + "" == builder;
    token := TrimDashes(builder);
    if token == "" {
      token := "default";
    }
  }

  lemma CleanedStep(u: Unicode, s: string, i: nat, lastDash: bool)
    requires i < |s|
    ensures Cleaned(u, s[i..], lastDash) ==
      if IsKept(u, s[i]) then [u.lower(s[i])] + Cleaned(u, s[i + 1..], false)
      else if lastDash then Cleaned(u, s[i + 1..], true)
      else ['-'] + Cleaned(u, s[i + 1..], true)
  {
    hide IsKept;
    assert s[i..][0] == s[i] && s[i..][1..] == s[i + 1..];
  }

  lemma CleanedEnd(u: Unicode, s: string, lastDash: bool)
    ensures Cleaned(u, s[|s|..], lastDash) == ""
  {}

  function RefOf(source: string, n: nat): string {
    "mavlink://raw/" + source + "/" + Padded(Decimal(n), 8)
  }

  /** A reference names the source and, in at least eight digits, how many captures there have been. */
  lemma RefIs(source: string, n: nat) returns (digits: string)
    ensures RefOf(source, n) == "mavlink://raw/" + source + "/" + digits
    ensures NumberOf(digits) == n && |digits| >= 8 && (|digits| > 8 ==> digits[0] != '0')
    ensures forall i :: 0 <= i < |digits| ==> '0' <= digits[i] <= '9'
  {
    hide Decimal, Padded, NumberOf;
    var numeral := Decimal(n);
    digits := Padded(numeral, 8);
    DecimalIsNumeral(n);
    DecimalReadsBack(n);
    PaddingKeepsNumber(numeral, 8);
    PaddedIs(numeral, 8);
    SmallIsShort(n);
    assert forall i :: |digits| - |numeral| <= i < |digits| ==> digits[i] == numeral[i - (|digits| - |numeral|)];
  }

  lemma SmallIsShort(n: nat)
    ensures n == 0 ==> |Decimal(n)| == 1
  {}

  // ---------- The longest suffix that fits ----------

  function Bytes(entries: seq<Entry>): nat {
    if entries == [] then 0 else |entries[0].bytes| + Bytes(entries[1..])
  }

  predicate Fits(entries: seq<Entry>, maxRecords: nat, maxBytes: nat) {
    |entries| <= maxRecords && Bytes(entries) <= maxBytes
  }

  function Newest(entries: seq<Entry>, k: nat): seq<Entry>
    requires k <= |entries|
  {
    entries[|entries| - k..]
  }

  function Retained(entries: seq<Entry>, maxRecords: nat, maxBytes: nat): seq<Entry> {
    if entries == [] || Fits(entries, maxRecords, maxBytes) then entries else Retained(entries[1..], maxRecords, maxBytes)
  }

  lemma {:induction false} BytesAppend(entries: seq<Entry>, e: Entry)
    ensures Bytes(entries + [e]) == Bytes(entries) + |e.bytes|
  {
    if entries == [] {
      assert [e][1..] == [];
    } else {
      assert (entries + [e])[1..] == entries[1..] + [e];
      BytesAppend(entries[1..], e);
    }
  }

  /** What is retained is a suffix that fits, and no longer suffix fits. */
  lemma {:induction false} RetainedIsLongestFit(entries: seq<Entry>, maxRecords: nat, maxBytes: nat)
    ensures var kept := Retained(entries, maxRecords, maxBytes);
      |kept| <= |entries| && kept == Newest(entries, |kept|) && Fits(kept, maxRecords, maxBytes)
      && forall k :: |kept| < k <= |entries| ==> !Fits(Newest(entries, k), maxRecords, maxBytes)
  {
    if entries != [] && !Fits(entries, maxRecords, maxBytes) {
      var rest := entries[1..];
      RetainedIsLongestFit(rest, maxRecords, maxBytes);
      forall k | |Retained(rest, maxRecords, maxBytes)| < k <= |entries|
        ensures !Fits(Newest(entries, k), maxRecords, maxBytes)
      {
        if k == |entries| {
          assert entries[0..] == entries;
        } else {
          assert Newest(rest, k) == Newest(entries, k);
        }
      }
    }
  }

  /** Evicting after every capture keeps exactly what evicting once at the end would. */
  lemma {:induction false} EvictingEarlyIsHarmless(entries: seq<Entry>, e: Entry, maxRecords: nat, maxBytes: nat)
    ensures Retained(Retained(entries, maxRecords, maxBytes) + [e], maxRecords, maxBytes)
         == Retained(entries + [e], maxRecords, maxBytes)
  {
    if entries != [] && !Fits(entries, maxRecords, maxBytes) {
      EvictingEarlyIsHarmless(entries[1..], e, maxRecords, maxBytes);
      BytesAppend(entries, e);
      assert (entries + [e])[1..] == entries[1..] + [e];
    }
  }

  /** The newest capture is always among the retained ones. */
  lemma NewestIsRetained(entries: seq<Entry>, e: Entry, maxRecords: nat, maxBytes: nat)
    requires maxRecords > 0 && |e.bytes| <= maxBytes
    ensures var kept := Retained(entries + [e], maxRecords, maxBytes); kept != [] && kept[|kept| - 1] == e
  {
    hide Retained;
    var all := entries + [e];
    RetainedIsLongestFit(all, maxRecords, maxBytes);
    assert Newest(all, 1) == [e] && [e][1..] == [];
    assert Bytes([e]) == |e.bytes|;
  }

  lemma RefsDiffer(source: string, m: nat, n: nat)
    requires RefOf(source, m) == RefOf(source, n)
    ensures m == n
  {
    hide Padded, Decimal, NumberOf;
    var head := "mavlink://raw/" + source + "/";
    assert RefOf(source, m)[|head|..] == Padded(Decimal(m), 8);
    assert RefOf(source, n)[|head|..] == Padded(Decimal(n), 8);
    PaddingKeepsNumber(Decimal(m), 8);
    PaddingKeepsNumber(Decimal(n), 8);
    DecimalReadsBack(m);
    DecimalReadsBack(n);
  }

  method Clone(frame: array<byte>) returns (copy: array<byte>)
    ensures fresh(copy) && copy[..] == frame[..]
  {
    copy := new byte[frame.Length];
    forall i | 0 <= i < frame.Length {
      copy[i] := frame[i];
    }
  }

  class RawLane {
    const source: string
    const maxRecords: nat
    const maxBytes: nat
    var next: nat
    var totalBytes: int
    var records: seq<RawRecord>

    /** Every capture that was accepted, oldest first. */
    ghost var accepted: seq<Entry>

    function Store(): set<array<byte>>
      reads this
    {
      set r <- records :: r.frame
    }

    /** The records hold these entries, each frame in an array of its own. */
    ghost predicate Holds(entries: seq<Entry>)
      reads this, Store()
    {
      |records| == |entries| && totalBytes == Bytes(entries)
      && (forall i :: 0 <= i < |records| ==> EntryOf(records[i]) == entries[i])
      && (forall i, j :: 0 <= i < j < |records| ==> records[i].frame != records[j].frame)
    }

    /** The records are the longest suffix of all accepted captures that fits both bounds. */
    ghost predicate Valid()
      reads this, Store()
    {
      maxRecords > 0 && maxBytes > 0 && next == |accepted|
      && (forall i :: 0 <= i < |accepted| ==> accepted[i].ref == RefOf(source, i + 1))
      && Holds(Retained(accepted, maxRecords, maxBytes))
    }

    constructor (u: Unicode, source: string, maxRecords: int, maxBytes: int)
      ensures Valid() && accepted == [] && Store() == {}
      ensures this.source == SourceToken(u, if source == "" then "default" else source)
      ensures this.maxRecords == if maxRecords <= 0 then 1024 else maxRecords
      ensures this.maxBytes == if maxBytes <= 0 then 0x80_0000 else maxBytes
    {
      var token := SanitizeSource(u, if source == "" then "default" else source);
      this.source := token;
      this.maxRecords := if maxRecords <= 0 then DEFAULT_MAX_RECORDS else maxRecords;
      this.maxBytes := if maxBytes <= 0 then DEFAULT_MAX_BYTES else maxBytes;
      next, totalBytes, records, accepted := 0, 0, [], [];
    }

    method Capture(frame: array<byte>, packet: Option<Packet>, now: int) returns (result: Capture)
      requires Valid()
      modifies this
      ensures Valid()
      ensures result.EmptyFrame? <==> frame.Length == 0
      ensures result.OversizedFrame? <==> frame.Length > maxBytes
      ensures if result.Captured? then accepted == old(accepted) + [EntryOf(result.record)] else unchanged(this)
      ensures result.Captured? ==>
        EntryOf(result.record) == Entry(RefOf(source, |accepted|), now, InfoOf(packet), frame[..])
        && records != [] && EntryOf(records[|records| - 1]) == EntryOf(result.record)
      ensures result.Captured? ==> fresh(result.record.frame) && result.record.frame !in Store()
      ensures fresh(Store() - old(Store()))
    {
      hide Retained, Bytes, RefOf;
      if frame.Length == 0 {
        return EmptyFrame;
      }
      if frame.Length > maxBytes {
        return OversizedFrame;
      }
      var copy := Clone(frame);
      var record := RawRecord(RefOf(source, next + 1), now, PacketInfo(0, 0, 0, 0, 0, 0), copy);
      if packet.Some? {
        record := record.(info := record.info.(version := packet.value.version, sequence := packet.value.sequence,
                                               systemId := packet.value.systemId, componentId := packet.value.componentId,
                                               messageId := packet.value.messageId, checksum := packet.value.checksum));
      }
      Accept(record);
      var clone := Clone(copy);
      result := Captured(record.(frame := clone));
    }

    /** Numbers and stores one record, and evicts what no longer fits. */
    method Accept(record: RawRecord)
      requires Valid() && record.frame !in Store()
      requires record.ref == RefOf(source, next + 1) && record.frame.Length <= maxBytes
      modifies this
      ensures Valid() && accepted == old(accepted) + [EntryOf(record)]
      ensures records != [] && EntryOf(records[|records| - 1]) == EntryOf(record)
      ensures Store() <= old(Store()) + {record.frame}
    {
      hide Retained, Bytes, RefOf;
      ghost var entry := EntryOf(record);
      ghost var kept := Retained(accepted, maxRecords, maxBytes);
      EvictingEarlyIsHarmless(accepted, entry, maxRecords, maxBytes);
      NewestIsRetained(accepted, entry, maxRecords, maxBytes);
      next := next + 1;
      Append(record, kept);
      accepted := accepted + [entry];
      Evict(kept + [entry]);
    }

    method Append(record: RawRecord, ghost entries: seq<Entry>)
      requires Holds(entries) && record.frame !in Store()
      modifies `records, `totalBytes
      ensures Holds(entries + [EntryOf(record)]) && Store() == old(Store()) + {record.frame}
    {
      hide Bytes;
      BytesAppend(entries, EntryOf(record));
      records := records + [record];
      totalBytes := totalBytes + record.frame.Length;
    }

    /** Drops the oldest records until both bounds are met. */
    method Evict(ghost entries: seq<Entry>)
      requires Holds(entries)
      modifies `records, `totalBytes
      ensures Holds(Retained(entries, maxRecords, maxBytes))
      ensures Store() <= old(Store())
    {
      ghost var left := entries;
      while |records| > maxRecords || totalBytes > maxBytes
        invariant Holds(left) && Store() <= old(Store())
        invariant Retained(left, maxRecords, maxBytes) == Retained(entries, maxRecords, maxBytes)
        decreases |records|
      {
        totalBytes := totalBytes - records[0].frame.Length;
        records := records[1..];
        left := left[1..];
      }
    }

    /** Copies of the records, oldest first, sharing no array with the lane or each other. */
    method Snapshot() returns (copies: seq<RawRecord>)
      requires Valid()
      ensures |copies| == |records|
      ensures forall i :: 0 <= i < |copies| ==>
        copies[i].frame !in Store() && EntryOf(copies[i]) == Retained(accepted, maxRecords, maxBytes)[i]
      ensures forall i :: 0 <= i < |copies| ==> fresh(copies[i].frame)
    {
      hide Retained, Bytes, RefOf;
      copies := [];
      for i := 0 to |records|
        invariant |copies| == i && Valid()
        invariant forall k :: 0 <= k < i ==> fresh(copies[k].frame) && copies[k].frame !in Store()
        invariant forall k :: 0 <= k < i ==> EntryOf(copies[k]) == EntryOf(records[k])
      {
        var clone := Clone(records[i].frame);
        copies := copies + [records[i].(frame := clone)];
      }
    }

    /** A copy of the one retained record with the given reference. */
    method Get(ref: string) returns (found: Option<RawRecord>)
      requires Valid()
      ensures found.None? <==> forall e <- Retained(accepted, maxRecords, maxBytes) :: e.ref != ref
      ensures found.Some? ==>
        fresh(found.value.frame) && found.value.ref == ref
        && EntryOf(found.value) in Retained(accepted, maxRecords, maxBytes)
    {
      hide Retained, Bytes, RefOf;
      ghost var kept := Retained(accepted, maxRecords, maxBytes);
      for i := 0 to |records|
        invariant forall k :: 0 <= k < i ==> kept[k].ref != ref
      {
        assert EntryOf(records[i]) == kept[i];
        if records[i].ref == ref {
          var clone := Clone(records[i].frame);
          return Some(records[i].(frame := clone));
        }
      }
      return None;
    }
  }

  /** The store consists of arrays, so nothing done to other objects touches it. */
  lemma StoreIsApart(lane: RawLane) returns (store: set<object>)
    ensures store == lane.Store() && forall o <- store :: o is array<byte>
  {
    store := lane.Store();
  }

  lemma RefOfRecord(lane: RawLane, i: nat) returns (n: nat)
    requires lane.Valid() && i < |lane.records|
    ensures lane.records[i].ref == RefOf(lane.source, n)
    ensures n == |lane.accepted| - |lane.records| + i + 1
  {
    hide Retained, Bytes, RefOf;
    RetainedIsLongestFit(lane.accepted, lane.maxRecords, lane.maxBytes);
    assert EntryOf(lane.records[i]) == Retained(lane.accepted, lane.maxRecords, lane.maxBytes)[i];
    n := |lane.accepted| - |lane.records| + i + 1;
  }

  /** Retained records have distinct references, so a reference names at most one capture. */
  lemma ReferencesAreUnique(lane: RawLane, i: nat, j: nat)
    requires lane.Valid() && i < j < |lane.records|
    ensures lane.records[i].ref != lane.records[j].ref
  {
    hide RefOf, lane.Valid;
    var m := RefOfRecord(lane, i);
    var n := RefOfRecord(lane, j);
    if lane.records[i].ref == lane.records[j].ref {
      RefsDiffer(lane.source, m, n);
    }
  }
}
