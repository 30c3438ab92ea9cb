/**
 The incremental MAVLink parser (pkg/adapters/mavlink/parser.go): a mutable buffer, health
 counters and a table of message specs. Parse refines the leftmost scan of Scan.dfy.
 */
module Parser {
  import opened Checksum
  import opened Fields
  import opened Frames
  import opened Scan

  const MAX_BUFFERED_BYTES := 4096

  datatype ParsingStats = ParsingStats(
    totalPackets: nat,
    validPackets: nat,
    invalidPackets: nat,
    checksumErrors: nat,
    unknownMessages: nat)
  {
    /** The counters after a scan with the given outcome. */
    function Count(r: Result): ParsingStats {
      ParsingStats(
        totalPackets + |r.packets|, validPackets + |r.packets|, invalidPackets + r.invalid,
        checksumErrors + r.checksumErrors, unknownMessages + r.unknown)
    }
  }

  const NO_STATS := ParsingStats(0, 0, 0, 0, 0)

  /** Field bounds fit the one-byte arithmetic of the wire table. */
  predicate WellFormedSpec(spec: MessageSpec) {
    forall f <- spec.fields :: f.offset + f.size <= MAX_PAYLOAD_LENGTH
  }

  lemma StandardSpecsAreWellFormed()
    ensures forall id <- StandardSpecs() :: WellFormedSpec(StandardSpecs()[id])
  {
    FieldsFit(HEARTBEAT_FIELDS);
    FieldsFit(GLOBAL_POSITION_FIELDS);
    FieldsFit(ATTITUDE_FIELDS);
    FieldsFit(COMMAND_LONG_FIELDS);
    FieldsFit(COMMAND_ACK_FIELDS);
    FieldsFit(BATTERY_FIELDS);
  }

  lemma FieldsFit(fields: seq<FieldSpec>)
    requires forall i :: 0 <= i < |fields| ==> fields[i].offset + fields[i].size <= MAX_PAYLOAD_LENGTH
    ensures forall f <- fields :: f.offset + f.size <= MAX_PAYLOAD_LENGTH
  {}

  /** A buffer the parser leaves behind: nothing, or the start of a frame that is incomplete. */
  predicate IsResidue(buffer: seq<byte>, specs: Specs) {
    buffer == [] || (IsSync(buffer[0]) && AttemptAt(buffer, specs).Incomplete?)
  }

  /** The offset of the first start byte, or -1. */
  method FindNextSync(buffer: seq<byte>) returns (offset: int)
    ensures -1 <= offset < |buffer|
    ensures offset >= 0 ==> IsSync(buffer[offset])
    ensures forall k :: 0 <= k < (if offset < 0 then |buffer| else offset) ==> !IsSync(buffer[k])
  {
    for i := 0 to |buffer|
      invariant forall k :: 0 <= k < i ==> !IsSync(buffer[k])
    {
      if IsSync(buffer[i]) {
        return i;
      }
    }
    return -1;
  }

  class Parser {
    var buffer: seq<byte>
    var messageSpecs: Specs
    var stats: ParsingStats

    ghost predicate Valid()
      reads this
    {
      IsResidue(buffer, messageSpecs) && forall id <- messageSpecs :: WellFormedSpec(messageSpecs[id])
    }

    constructor ()
      ensures Valid() && buffer == [] && messageSpecs == StandardSpecs() && stats == NO_STATS
    {
      hide StandardSpecs, WellFormedSpec;
      StandardSpecsAreWellFormed();
      buffer, messageSpecs, stats := [], StandardSpecs(), NO_STATS;
    }

    method RegisterMessageSpec(spec: Option<MessageSpec>)
      requires Valid() && (spec.Some? ==> WellFormedSpec(spec.value))
      modifies this`messageSpecs
      ensures Valid()
      ensures messageSpecs == if spec.None? then old(messageSpecs) else old(messageSpecs)[spec.value.id := spec.value]
    {
      if spec.None? {
        return;
      }
      messageSpecs := messageSpecs[spec.value.id := spec.value];
      CompletenessIgnoresSpecs(buffer, messageSpecs, old(messageSpecs));
    }

    method ResetStats()
      modifies this`stats
      ensures stats == ParsingStats(0, 0, 0, 0, 0)
    {
      stats := NO_STATS;
    }

    /** The frame at the start of a buffer, if one is complete and valid there. */
    method ParsePacket(data: seq<byte>) returns (attempt: Attempt)
      ensures attempt == AttemptAt(data, messageSpecs)
    {
      if |data| < 2 {
        return Incomplete;
      }
      if !IsSync(data[0]) {
        return BadSync;
      }
      var header := HeaderOf(data);
      if header.None? || |data| < header.value.FrameLength() {
        return Incomplete;
      }
      attempt := ReadChecked(data, header.value);
    }

    method ReadChecked(data: seq<byte>, h: Header) returns (attempt: Attempt)
      requires 1 <= h.size && h.FrameLength() <= |data|
      ensures attempt == ReadFrame(data, h, messageSpecs)
    {
      hide ChecksumWithExtra, DecodeFields;
      var checksum := WireChecksum(data, h.ChecksumOffset());
      var calculated := CalculateChecksumWithExtra(data[1..h.ChecksumOffset()], CrcExtraFor(messageSpecs, h.messageId));
      if checksum != calculated {
        return BadChecksum;
      }
      var payload := data[h.size..h.ChecksumOffset()];
      var fields: Option<map<string, FieldValue>> := None;
      if h.messageId in messageSpecs {
        var values := ParseFields(messageSpecs[h.messageId].fields, payload);
        fields := Some(values);
      }
      var signatureStart := h.ChecksumOffset() + CHECKSUM_SIZE;
      var signature := if h.signed then Some(data[signatureStart..signatureStart + SIGNATURE_SIZE]) else None;
      return Accepted(
        Packet(h.version, h.length, h.sequence, h.systemId, h.componentId, h.messageId, payload, checksum, signature, fields),
        h.FrameLength());
    }

    /** The guard after the loop; Parse proves that it never finds anything to drop. */
    method DropOversizedBuffer()
      modifies this`buffer, this`stats
      ensures var over := |old(buffer)| > 4096;
        buffer == (if over then [] else old(buffer)) &&
        stats == if over then old(stats).(invalidPackets := old(stats).invalidPackets + |old(buffer)|) else old(stats)
    {
      if |buffer| > MAX_BUFFERED_BYTES {
        stats := stats.(invalidPackets := stats.invalidPackets + |buffer|);
        buffer := [];
      }
    }

    /** Appends data to the buffer and returns every packet that is now complete. */
    method Parse(data: seq<byte>) returns (packets: seq<Packet>)
      requires Valid()
      modifies this`buffer, this`stats
      ensures Valid()
      ensures var r := ScanStream(old(buffer) + data, messageSpecs);
        packets == r.packets && buffer == r.rest && stats == old(stats).Count(r)
      ensures |buffer| < 280
    {
      hide AttemptAt, ScanStream, WellFormedSpec, Progress;
      buffer := buffer + data;
      packets := [];
      ghost var specs := messageSpecs;
      ghost var whole := ScanStream(buffer, specs);
      ProgressStarts(stats, whole);
      while true
        invariant Progress(old(stats), stats, packets, ScanStream(buffer, specs), whole)
        decreases |buffer|
      {
        ghost var current := buffer;
        ghost var counted := stats;
        var syncOffset := FindNextSync(buffer);
        if syncOffset < 0 {
          stats := stats.(invalidPackets := stats.invalidPackets + |buffer|);
          buffer := [];
          assert current[|current|..] == [];
          ProgressSkips(old(stats), counted, packets, current, |current|, specs, whole);
          break;
        }
        if syncOffset > 0 {
          stats := stats.(invalidPackets := stats.invalidPackets + syncOffset);
          buffer := buffer[syncOffset..];
        }
        assert buffer == current[syncOffset..];
        ProgressSkips(old(stats), counted, packets, current, syncOffset, specs, whole);
        current, counted := buffer, stats;

        var attempt := ParsePacket(buffer);
        match attempt {
          case Incomplete =>
            break;
          case BadSync =>
            stats := stats.(invalidPackets := stats.invalidPackets + 1);
            buffer := buffer[1..];
            ProgressDrops(old(stats), counted, packets, current, specs, whole);
          case BadChecksum =>
            stats := stats.(invalidPackets := stats.invalidPackets + 1, checksumErrors := stats.checksumErrors + 1);
            buffer := buffer[1..];
            ProgressDrops(old(stats), counted, packets, current, specs, whole);
          case Accepted(packet, consumed) =>
            ProgressTakes(old(stats), counted, packets, current, specs, whole);
            packets := packets + [packet];
            var unknown := if packet.fields.None? then 1 else 0;
            stats := stats.(validPackets := stats.validPackets + 1, unknownMessages := stats.unknownMessages + unknown);
            buffer := buffer[consumed..];
        }
      }
      ProgressEnds(old(stats), stats, packets, buffer, specs, whole);
      RestIsSuffix(old(buffer) + data, specs);
      DropOversizedBuffer();
      stats := stats.(totalPackets := stats.totalPackets + |packets|);
    }
  }

  // ---------- The loop of Parse against the scan ----------

  /** What has been counted and returned so far, together with what remains, is the whole scan. */
  ghost predicate Progress(before: ParsingStats, now: ParsingStats, packets: seq<Packet>, remaining: Result, whole: Result) {
    && whole.packets == packets + remaining.packets
    && whole.rest == remaining.rest
    && now.totalPackets == before.totalPackets
    && before.validPackets + |whole.packets| == now.validPackets + |remaining.packets|
    && before.invalidPackets + whole.invalid == now.invalidPackets + remaining.invalid
    && before.checksumErrors + whole.checksumErrors == now.checksumErrors + remaining.checksumErrors
    && before.unknownMessages + whole.unknown == now.unknownMessages + remaining.unknown
  }

  lemma ProgressStarts(stats: ParsingStats, whole: Result)
    ensures Progress(stats, stats, [], whole, whole)
  {}

  lemma ProgressSkips(before: ParsingStats, now: ParsingStats, packets: seq<Packet>, s: seq<byte>, n: nat, specs: Specs, whole: Result)
    requires Progress(before, now, packets, ScanStream(s, specs), whole)
    requires n <= |s| && forall k :: 0 <= k < n ==> !IsSync(s[k])
    ensures Progress(before, now.(invalidPackets := now.invalidPackets + n), packets, ScanStream(s[n..], specs), whole)
  {
    hide ScanStream;
    SkipRun(s, n, specs);
  }

  lemma ProgressDrops(before: ParsingStats, now: ParsingStats, packets: seq<Packet>, s: seq<byte>, specs: Specs, whole: Result)
    requires Progress(before, now, packets, ScanStream(s, specs), whole)
    requires s != [] && IsSync(s[0]) && (AttemptAt(s, specs).BadSync? || AttemptAt(s, specs).BadChecksum?)
    ensures var errors := if AttemptAt(s, specs).BadChecksum? then 1 else 0;
      var next := now.(invalidPackets := now.invalidPackets + 1, checksumErrors := now.checksumErrors + errors);
      Progress(before, next, packets, ScanStream(s[1..], specs), whole)
  {
    hide ScanStream, AttemptAt;
    ScanDrops(s, specs);
  }

  lemma ProgressTakes(before: ParsingStats, now: ParsingStats, packets: seq<Packet>, s: seq<byte>, specs: Specs, whole: Result)
    requires Progress(before, now, packets, ScanStream(s, specs), whole)
    requires s != [] && IsSync(s[0]) && AttemptAt(s, specs).Accepted?
    ensures 1 <= AttemptAt(s, specs).consumed <= |s|
    ensures var a := AttemptAt(s, specs);
      var unknown := if a.packet.fields.None? then 1 else 0;
      var next := now.(validPackets := now.validPackets + 1, unknownMessages := now.unknownMessages + unknown);
      Progress(before, next, packets + [a.packet], ScanStream(s[a.consumed..], specs), whole)
  {
    hide ScanStream, AttemptAt;
    ScanTakes(s, specs);
  }

  lemma ProgressEnds(before: ParsingStats, now: ParsingStats, packets: seq<Packet>, s: seq<byte>, specs: Specs, whole: Result)
    requires Progress(before, now, packets, ScanStream(s, specs), whole)
    requires IsResidue(s, specs)
    ensures packets == whole.packets && s == whole.rest
    ensures now.(totalPackets := now.totalPackets + |packets|) == before.Count(whole)
  {
    hide ScanStream, AttemptAt;
    if s == [] {
      ScanEmpty(s, specs);
    } else {
      ScanStops(s, specs);
    }
  }

  /**
   A fresh parser fed a stream in any chunks returns what one scan of the whole stream
   returns, counts the same, and ends with the same buffer.
   */
  method ParseChunks(chunks: seq<seq<byte>>) returns (packets: seq<Packet>, parser: Parser)
    ensures fresh(parser) && parser.Valid()
    ensures var r := ScanStream(Flatten(chunks), StandardSpecs());
      packets == r.packets && parser.buffer == r.rest && parser.stats == NO_STATS.Count(r)
  {
    hide AttemptAt, ScanStream, FeedChunks, StandardSpecs, WellFormedSpec, IsResidue, Join, ParsingStats.Count;
    parser := new Parser();
    packets := [];
    ghost var specs := StandardSpecs();
    ghost var r := Result([], [], 0, 0, 0);
    FeedNothing(specs);
    CountNothing(NO_STATS);
    for i := 0 to |chunks|
      invariant fresh(parser) && parser.Valid() && parser.messageSpecs == specs
      invariant r == FeedChunks(chunks[..i], specs)
      invariant packets == r.packets && parser.buffer == r.rest && parser.stats == NO_STATS.Count(r)
    {
      FeedOneMore(chunks, i, specs);
      ghost var next := ScanStream(r.rest + chunks[i], specs);
      CountJoin(NO_STATS, r, next);
      var more := parser.Parse(chunks[i]);
      packets := packets + more;
      r := Join(r, next);
    }
    assert chunks[..|chunks|] == chunks;
    ChunkingIsInvisible(chunks, specs);
  }

  lemma CountNothing(stats: ParsingStats)
    ensures stats.Count(Result([], [], 0, 0, 0)) == stats
  {}

  lemma CountJoin(stats: ParsingStats, r: Result, next: Result)
    ensures stats.Count(Join(r, next)) == stats.Count(r).Count(next)
    ensures Join(r, next).packets == r.packets + next.packets && Join(r, next).rest == next.rest
  {}

  lemma FeedNothing(specs: Specs)
    ensures FeedChunks([], specs) == Result([], [], 0, 0, 0)
  {}

  lemma FeedOneMore(chunks: seq<seq<byte>>, i: nat, specs: Specs)
    requires i < |chunks|
    ensures var before := FeedChunks(chunks[..i], specs);
      FeedChunks(chunks[..i + 1], specs) == Join(before, ScanStream(before.rest + chunks[i], specs))
  {
    hide ScanStream;
    assert chunks[..i + 1][..i] == chunks[..i];
  }
}
