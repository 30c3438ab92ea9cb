/**
 A leftmost scan of a whole byte stream, written without buffers or chunks: the
 specification of the incremental parser. From the current position, skip one byte that
 is not a start byte, stop at a frame that is still incomplete, skip the start byte of a
 frame whose checksum fails, and otherwise take the frame.
 */
module Scan {
  import opened Checksum
  import opened Fields
  import opened Frames

  type Specs = map<nat, MessageSpec>

  datatype Result = Result(
    packets: seq<Packet>,
    rest: seq<byte>,
    invalid: nat,
    checksumErrors: nat,
    unknown: nat)

  datatype Span = Span(start: nat, length: nat) {
    function End(): nat {
      start + length
    }
  }

  /** What the parser does at the start of a non-empty buffer. */
  datatype Move = Stop | Drop(checksumError: bool) | Grab(packet: Packet, length: nat) {
    function Width(): nat {
      if Grab? then length else 1
    }
  }

  function NextMove(s: seq<byte>, specs: Specs): (m: Move)
    requires s != []
    ensures m.Stop? ==> IsSync(s[0]) && AttemptAt(s, specs).Incomplete? && |s| < MAX_FRAME_LENGTH
    ensures m.Grab? ==> AttemptAt(s, specs) == Accepted(m.packet, m.length) && m.length == WireLength(m.packet)
    ensures m.Drop? ==> !AttemptAt(s, specs).Accepted?
    ensures 1 <= m.Width() <= |s|
  {
    AttemptBounds(s, specs);
    if !IsSync(s[0]) then Drop(false)
    else match AttemptAt(s, specs)
      case Incomplete => Stop
      case BadSync => Drop(false)
      case BadChecksum => Drop(true)
      case Accepted(p, n) => Grab(p, n)
  }

  /** The outcome of a scan that begins with a move that does not stop it. */
  function Prepend(m: Move, r: Result): Result
    requires !m.Stop?
  {
    match m
    case Drop(checksumError) =>
      r.(invalid := r.invalid + 1, checksumErrors := r.checksumErrors + if checksumError then 1 else 0)
    case Grab(p, _) =>
      r.(packets := [p] + r.packets, unknown := r.unknown + if p.fields.None? then 1 else 0)
  }

  function ScanStream(s: seq<byte>, specs: Specs): Result {
    if s == [] then Result([], [], 0, 0, 0)
    else
      var m := NextMove(s, specs);
      if m.Stop? then Result([], s, 0, 0, 0) else Prepend(m, ScanStream(s[m.Width()..], specs))
  }

  /** Where the frames that the scan takes lie, when the stream starts at position `at`. */
  function Spans(s: seq<byte>, specs: Specs, at: nat): seq<Span> {
    if s == [] then []
    else match NextMove(s, specs)
      case Stop => []
      case Drop(_) => Spans(s[1..], specs, at + 1)
      case Grab(_, n) => [Span(at, n)] + Spans(s[n..], specs, at + n)
  }

  // ---------- Soundness and completeness of resynchronisation ----------

  lemma {:induction false} RestIsSuffix(s: seq<byte>, specs: Specs)
    ensures var r := ScanStream(s, specs).rest;
      |r| <= |s| && r == s[|s| - |r|..] && |r| < MAX_FRAME_LENGTH
      && (r != [] ==> IsSync(r[0]) && AttemptAt(r, specs).Incomplete?)
  {
    hide AttemptAt, NextMove;
    if s != [] && !NextMove(s, specs).Stop? {
      var n := NextMove(s, specs).Width();
      var tail := s[n..];
      RestIsSuffix(tail, specs);
      var r := ScanStream(tail, specs).rest;
      assert ScanStream(s, specs).rest == r;
      assert tail[|tail| - |r|..] == s[|s| - |r|..];
    }
  }

  /** Span sp holds an accepted frame of the stream, outside the rest, that decodes to packet p. */
  ghost predicate SpanDecodes(s: seq<byte>, specs: Specs, at: nat, sp: Span, p: Packet) {
    at <= sp.start && sp.End() <= at + |s| - |ScanStream(s, specs).rest| && sp.start - at <= |s|
    && AttemptAt(s[sp.start - at..], specs) == Accepted(p, sp.length)
  }

  lemma SpanDecodesInTail(s: seq<byte>, specs: Specs, at: nat, n: nat, sp: Span, p: Packet)
    requires n <= |s| && SpanDecodes(s[n..], specs, at + n, sp, p)
    requires ScanStream(s[n..], specs).rest == ScanStream(s, specs).rest
    ensures SpanDecodes(s, specs, at, sp, p) && at + n <= sp.start
  {
    hide AttemptAt, NextMove, ScanStream;
    assert s[n..][sp.start - (at + n)..] == s[sp.start - at..];
  }

  /** What is returned are frames of the stream, each decoded where it stands. */
  lemma {:induction false} SpansAreSound(s: seq<byte>, specs: Specs, at: nat)
    ensures |Spans(s, specs, at)| == |ScanStream(s, specs).packets|
    ensures forall k :: 0 <= k < |Spans(s, specs, at)| ==>
      SpanDecodes(s, specs, at, Spans(s, specs, at)[k], ScanStream(s, specs).packets[k])
  {
    hide AttemptAt, NextMove, SpanDecodes;
    if s != [] && !NextMove(s, specs).Stop? {
      var m := NextMove(s, specs);
      var n := m.Width();
      var tail := s[n..];
      SpansAreSound(tail, specs, at + n);
      var spans, packets := Spans(tail, specs, at + n), ScanStream(tail, specs).packets;
      forall k | 0 <= k < |spans|
        ensures SpanDecodes(s, specs, at, spans[k], packets[k])
      {
        SpanDecodesInTail(s, specs, at, n, spans[k], packets[k]);
      }
      if m.Grab? {
        FirstSpanDecodes(s, specs, at);
      }
    }
  }

  lemma FirstSpanDecodes(s: seq<byte>, specs: Specs, at: nat)
    requires s != [] && NextMove(s, specs).Grab?
    ensures var m := NextMove(s, specs); SpanDecodes(s, specs, at, Span(at, m.length), m.packet)
  {
    hide AttemptAt, NextMove;
    assert s[0..] == s;
    RestIsSuffix(s[NextMove(s, specs).length..], specs);
  }

  /** Frames are returned in stream order and never overlap. */
  lemma {:induction false} SpansAreOrdered(s: seq<byte>, specs: Specs, at: nat)
    ensures var spans := Spans(s, specs, at);
      forall j, k :: 0 <= j < k < |spans| ==> spans[j].End() <= spans[k].start
  {
    hide AttemptAt, NextMove, ScanStream;
    if s != [] && !NextMove(s, specs).Stop? {
      var n := NextMove(s, specs).Width();
      SpansAreOrdered(s[n..], specs, at + n);
      SpansAreSound(s[n..], specs, at + n);
    }
  }

  /** Position at + p lies in span k, and starts it only if packet k is the frame at p. */
  ghost predicate Covers(s: seq<byte>, specs: Specs, at: nat, k: nat, p: nat)
    requires p <= |s|
  {
    var spans, packets := Spans(s, specs, at), ScanStream(s, specs).packets;
    k < |spans| && k < |packets|
    && spans[k].start <= at + p < spans[k].End()
    && (spans[k].start == at + p ==> AttemptAt(s[p..], specs) == Accepted(packets[k], spans[k].length))
  }

  lemma CoversInTail(s: seq<byte>, specs: Specs, at: nat, k: nat, p: nat)
    requires s != [] && !NextMove(s, specs).Stop? && NextMove(s, specs).Width() <= p <= |s|
    requires var n := NextMove(s, specs).Width(); Covers(s[n..], specs, at + n, k, p - n)
    ensures Covers(s, specs, at, if NextMove(s, specs).Grab? then k + 1 else k, p)
  {
    hide AttemptAt, NextMove;
    var n := NextMove(s, specs).Width();
    assert s[n..][p - n..] == s[p..];
  }

  /**
   Resynchronisation is complete: a whole valid frame at position p of the stream is
   returned, unless p lies inside a frame returned earlier or in the unread rest.
   */
  lemma {:induction false} EveryFrameIsFound(s: seq<byte>, specs: Specs, at: nat, p: nat)
    requires p < |s| && AttemptAt(s[p..], specs).Accepted?
    ensures p >= |s| - |ScanStream(s, specs).rest| || exists k: nat :: Covers(s, specs, at, k, p)
    decreases |s|
  {
    hide AttemptAt, NextMove, Covers;
    var m := NextMove(s, specs);
    assert s[0..] == s;
    if !m.Stop? {
      var n := m.Width();
      if p < n {
        assert m.Grab?;
        assert Covers(s, specs, at, 0, p) by {
          FirstSpanCovers(s, specs, at, p);
        }
      } else {
        assert s[n..][p - n..] == s[p..];
        EveryFrameIsFound(s[n..], specs, at + n, p - n);
        if p < |s| - |ScanStream(s, specs).rest| {
          var k: nat :| Covers(s[n..], specs, at + n, k, p - n);
          CoversInTail(s, specs, at, k, p);
        }
      }
    }
  }

  lemma FirstSpanCovers(s: seq<byte>, specs: Specs, at: nat, p: nat)
    requires s != [] && NextMove(s, specs).Grab? && p < NextMove(s, specs).length
    ensures Covers(s, specs, at, 0, p)
  {
    hide AttemptAt, NextMove;
    assert s[0..] == s;
  }

  // ---------- Conservation ----------

  function WireLengths(packets: seq<Packet>): nat {
    if packets == [] then 0 else WireLength(packets[0]) + WireLengths(packets[1..])
  }

  /** Every byte fed is counted invalid, is part of a returned frame, or is still unread. */
  lemma {:induction false} BytesAreConserved(s: seq<byte>, specs: Specs)
    ensures var r := ScanStream(s, specs);
      |s| == r.invalid + WireLengths(r.packets) + |r.rest|
    ensures ScanStream(s, specs).checksumErrors <= ScanStream(s, specs).invalid
    ensures ScanStream(s, specs).unknown <= |ScanStream(s, specs).packets|
  {
    hide AttemptAt, NextMove, WireLength;
    if s != [] && !NextMove(s, specs).Stop? {
      var m := NextMove(s, specs);
      BytesAreConserved(s[m.Width()..], specs);
      if m.Grab? {
        var r := ScanStream(s, specs);
        assert r.packets[0] == m.packet && r.packets[1..] == ScanStream(s[m.length..], specs).packets;
      }
    }
  }

  // ---------- Feeding a stream in pieces ----------

  function Join(first: Result, second: Result): Result {
    Result(
      first.packets + second.packets, second.rest, first.invalid + second.invalid,
      first.checksumErrors + second.checksumErrors, first.unknown + second.unknown)
  }

  lemma MoveIsStable(s: seq<byte>, t: seq<byte>, specs: Specs)
    requires s != [] && !NextMove(s, specs).Stop?
    ensures NextMove(s + t, specs) == NextMove(s, specs)
  {
    if IsSync(s[0]) {
      AttemptIsStable(s, t, specs);
    }
  }

  lemma ScanUnfolds(s: seq<byte>, specs: Specs)
    requires s != [] && !NextMove(s, specs).Stop?
    ensures var m := NextMove(s, specs);
      ScanStream(s, specs) == Prepend(m, ScanStream(s[m.Width()..], specs))
  {}

  lemma PrependJoins(m: Move, first: Result, second: Result)
    requires !m.Stop?
    ensures Prepend(m, Join(first, second)) == Join(Prepend(m, first), second)
    ensures Prepend(m, first).rest == first.rest
  {}

  lemma NothingJoins(s: seq<byte>, second: Result)
    ensures Join(Result([], s, 0, 0, 0), second) == second
  {}

  /** Scanning the first part and then the unread rest with the second part scans the whole. */
  lemma {:induction false} ScanAppend(s: seq<byte>, t: seq<byte>, specs: Specs)
    ensures ScanStream(s + t, specs) ==
      Join(ScanStream(s, specs), ScanStream(ScanStream(s, specs).rest + t, specs))
  {
    hide AttemptAt, NextMove, ScanStream, Join, Prepend;
    if s == [] {
      assert s + t == t;
      ScanEmpty(s, specs);
      NothingJoins(s, ScanStream(t, specs));
    } else if NextMove(s, specs).Stop? {
      ScanStops(s, specs);
      NothingJoins(s, ScanStream(s + t, specs));
    } else {
      MoveIsStable(s, t, specs);
      var m := NextMove(s, specs);
      var tail := s[m.Width()..];
      assert (s + t)[m.Width()..] == tail + t;
      ScanAppend(tail, t, specs);
      ScanUnfolds(s, specs);
      ScanUnfolds(s + t, specs);
      PrependJoins(m, ScanStream(tail, specs), ScanStream(ScanStream(tail, specs).rest + t, specs));
    }
  }

  function Flatten(chunks: seq<seq<byte>>): seq<byte> {
    if chunks == [] then [] else Flatten(chunks[..|chunks| - 1]) + chunks[|chunks| - 1]
  }

  /** The state after feeding chunks one at a time, each behind the unread rest of those before. */
  function FeedChunks(chunks: seq<seq<byte>>, specs: Specs): Result {
    if chunks == [] then Result([], [], 0, 0, 0)
    else
      var before := FeedChunks(chunks[..|chunks| - 1], specs);
      Join(before, ScanStream(before.rest + chunks[|chunks| - 1], specs))
  }

  /** Any way of cutting a stream into chunks yields the packets, counts and rest of the whole. */
  lemma {:induction false} ChunkingIsInvisible(chunks: seq<seq<byte>>, specs: Specs)
    ensures FeedChunks(chunks, specs) == ScanStream(Flatten(chunks), specs)
  {
    if chunks != [] {
      var init := chunks[..|chunks| - 1];
      ChunkingIsInvisible(init, specs);
      ScanAppend(Flatten(init), chunks[|chunks| - 1], specs);
    }
  }

  // ---------- Skipping to the next start byte at once ----------

  lemma {:induction false} SkipRun(s: seq<byte>, n: nat, specs: Specs)
    requires n <= |s| && forall k :: 0 <= k < n ==> !IsSync(s[k])
    ensures var r := ScanStream(s[n..], specs);
      ScanStream(s, specs) == r.(invalid := r.invalid + n)
    decreases n
  {
    if n == 0 {
      assert s[0..] == s;
    } else {
      SkipRun(s[1..], n - 1, specs);
      assert s[1..][n - 1..] == s[n..];
    }
  }

  lemma ScanEmpty(s: seq<byte>, specs: Specs)
    requires s == []
    ensures ScanStream(s, specs) == Result([], [], 0, 0, 0)
  {}

  lemma ScanStops(s: seq<byte>, specs: Specs)
    requires s != [] && AttemptAt(s, specs).Incomplete? && IsSync(s[0])
    ensures ScanStream(s, specs) == Result([], s, 0, 0, 0)
  {}

  lemma ScanDrops(s: seq<byte>, specs: Specs)
    requires s != [] && IsSync(s[0]) && (AttemptAt(s, specs).BadSync? || AttemptAt(s, specs).BadChecksum?)
    ensures ScanStream(s, specs) == Prepend(Drop(AttemptAt(s, specs).BadChecksum?), ScanStream(s[1..], specs))
  {}

  lemma ScanTakes(s: seq<byte>, specs: Specs)
    requires s != [] && IsSync(s[0]) && AttemptAt(s, specs).Accepted?
    ensures var a := AttemptAt(s, specs);
      1 <= a.consumed <= |s| && ScanStream(s, specs) == Prepend(Grab(a.packet, a.consumed), ScanStream(s[a.consumed..], specs))
  {}
}
