/**
 The codec round trip over whole streams: any messages, from any senders, generated one
 after another, concatenated, and cut into any chunks, come back from a fresh parser as
 exactly those messages in order.
 */
module RoundTrip {
  import opened Checksum
  import opened Fields
  import opened Frames
  import opened Scan
  import opened Encoding
  import opened Generator

  predicate AllValid(sent: seq<Sent>) {
    forall s <- sent :: s.message.Valid()
  }

  function FramesOf(sent: seq<Sent>): seq<seq<byte>>
    requires AllValid(sent)
  {
    if sent == [] then [] else FramesOf(sent[..|sent| - 1]) + [FrameOf(sent[|sent| - 1])]
  }

  function PacketOf(s: Sent): Packet
    requires s.message.Valid()
  {
    PayloadLength(s.message);
    PacketFor(s.systemId, s.componentId, s.sequence, s.message.Id(), Payload(s.message))
  }

  function PacketsOf(sent: seq<Sent>): seq<Packet>
    requires AllValid(sent)
  {
    seq(|sent|, i requires 0 <= i < |sent| => PacketOf(sent[i]))
  }

  /** The packet says who sent it and carries every value of the message under its field name. */
  ghost predicate Delivers(p: Packet, s: Sent) {
    s.message.Valid() && p.version == 2 && p.signature.None?
    && p.systemId == s.systemId && p.componentId == s.componentId && p.sequence == s.sequence
    && p.messageId == s.message.Id() && p.payload == Payload(s.message)
    && p.fields.Some? && Carries(p.fields.value, FieldsOf(s.message.Id()), s.message.Values())
  }

  lemma StandardFields(id: nat)
    requires id in {HEARTBEAT, BATTERY_STATUS, GLOBAL_POSITION_INT, ATTITUDE, COMMAND_LONG, COMMAND_ACK}
    ensures id in StandardSpecs() && StandardSpecs()[id].fields == FieldsOf(id) && id < 0x100_0000
  {}

  lemma PacketDelivers(s: Sent)
    requires s.message.Valid()
    ensures Delivers(PacketOf(s), s)
  {
    hide Carries, Payload, Message.Values, FieldsOf, StandardSpecs, ChecksumWithExtra, CoveredBytes;
    StandardFields(s.message.Id());
    PayloadRoundTrip(s.message);
  }

  lemma OneFrame(s: Sent)
    requires s.message.Valid()
    ensures ScanStream(FrameOf(s), StandardSpecs()) == Result([PacketOf(s)], [], 0, 0, 0)
  {
    hide AttemptAt, ScanStream, Payload, StandardSpecs, PacketFor, FrameBytes, Delivers;
    StandardFields(s.message.Id());
    PayloadLength(s.message);
    FrameRoundTrip(s.systemId, s.componentId, s.sequence, s.message.Id(), Payload(s.message));
    var f := FrameOf(s);
    AttemptBounds(f, StandardSpecs());
    ScanTakes(f, StandardSpecs());
    assert f[|f|..] == [];
    ScanEmpty(f[|f|..], StandardSpecs());
    KnownToStandard(s);
  }

  lemma KnownToStandard(s: Sent)
    requires s.message.Valid()
    ensures PacketOf(s).fields.Some?
  {
    PacketDelivers(s);
  }

  /** A whole stream of frames scans to the packets of its messages, and nothing is left or lost. */
  lemma {:induction false} StreamRoundTrip(sent: seq<Sent>)
    requires AllValid(sent)
    ensures ScanStream(Flatten(FramesOf(sent)), StandardSpecs()) == Result(PacketsOf(sent), [], 0, 0, 0)
  {
    hide ScanStream, PacketOf, FrameOf, StandardSpecs;
    if sent == [] {
      ScanEmpty([], StandardSpecs());
    } else {
      var init, last := sent[..|sent| - 1], sent[|sent| - 1];
      StreamRoundTrip(init);
      var frames := FramesOf(sent);
      assert frames[..|frames| - 1] == FramesOf(init);
      ScanAppend(Flatten(FramesOf(init)), FrameOf(last), StandardSpecs());
      assert [] + FrameOf(last) == FrameOf(last);
      OneFrame(last);
      assert PacketsOf(sent) == PacketsOf(init) + [PacketOf(last)];
    }
  }

  /** However the stream is cut, a fresh parser delivers every message, in order. */
  lemma CodecRoundTrip(sent: seq<Sent>, chunks: seq<seq<byte>>)
    requires AllValid(sent) && Flatten(chunks) == Flatten(FramesOf(sent))
    ensures var r := FeedChunks(chunks, StandardSpecs());
      |r.packets| == |sent| && r.rest == [] && r.invalid == r.checksumErrors == r.unknown == 0
      && forall i :: 0 <= i < |sent| ==> Delivers(r.packets[i], sent[i])
  {
    hide ScanStream, PacketOf, FramesOf, Delivers, StandardSpecs;
    ChunkingIsInvisible(chunks, StandardSpecs());
    StreamRoundTrip(sent);
    forall i | 0 <= i < |sent|
      ensures Delivers(PacketOf(sent[i]), sent[i])
    {
      PacketDelivers(sent[i]);
    }
  }

  // ---------- Sequence bytes ----------

  /** What a generator sends for a list of messages when its counter stands at n. */
  function SentBy(systemId: byte, componentId: byte, n: uint32, messages: seq<Message>): seq<Sent> {
    seq(|messages|, i requires 0 <= i < |messages| =>
      Sent(systemId, componentId, ToByte((n + i + 1) % 0x100), messages[i]))
  }

  method Generate(g: Generator, m: Message) returns (frame: seq<byte>)
    requires m.Valid()
    modifies g`sequence
    ensures g.sequence == Successor(old(g.sequence))
    ensures frame == FrameOf(Sent(g.systemId, g.componentId, ToByte(g.sequence % 0x100), m))
  {
    hide FrameOf;
    var r: BuildResult;
    match m {
      case Heartbeat(_, _, _, _, _, _) => r := g.GenerateHeartbeat(m);
      case BatteryStatus(_, _, _, _, _, _, _, _, _) => r := g.GenerateBatteryStatus(m);
      case GlobalPosition(_, _, _, _, _, _, _, _, _) => r := g.GenerateGlobalPosition(m);
      case Attitude(_, _, _, _, _, _, _) => r := g.GenerateAttitude(m);
      case CommandLong(_, _, _, _, _) => r := g.GenerateCommandLong(m);
      case CommandAck(_, _, _, _, _, _) => r := g.GenerateCommandAck(m);
    }
    frame := r.frame[..];
  }

  lemma SuccessorWraps(x: nat)
    ensures (x % 0x1_0000_0000 + 1) % 0x1_0000_0000 == (x + 1) % 0x1_0000_0000
  {
    var q, r := x / 0x1_0000_0000, x % 0x1_0000_0000;
    if r + 1 == 0x1_0000_0000 {
      assert x + 1 == (q + 1) * 0x1_0000_0000;
    } else {
      assert x + 1 == q * 0x1_0000_0000 + (r + 1);
    }
  }

  lemma LowByteSurvivesWrap(x: nat)
    ensures x % 0x1_0000_0000 % 0x100 == x % 0x100
  {
    var q, r := x / 0x1_0000_0000, x % 0x1_0000_0000;
    RemainderOf(x, q * 0x100_0000 + r / 0x100, r % 0x100);
  }

  lemma RemainderOf(x: nat, q: nat, r: nat)
    requires x == q * 0x100 + r && r < 0x100
    ensures x % 0x100 == r
  {}

  lemma FramesNext(sent: seq<Sent>, i: nat)
    requires AllValid(sent) && i < |sent|
    ensures AllValid(sent[..i]) && AllValid(sent[..i + 1])
    ensures FramesOf(sent[..i + 1]) == FramesOf(sent[..i]) + [FrameOf(sent[i])]
  {
    hide FrameOf;
    assert sent[..i + 1][..i] == sent[..i];
  }

  /**
   Frames of a generator carry consecutive sequence bytes, also across the wrap of its
   32-bit counter: the n-th frame of a fresh generator carries n mod 256.
   */
  method GenerateAll(g: Generator, messages: seq<Message>) returns (frames: seq<seq<byte>>)
    requires forall m <- messages :: m.Valid()
    modifies g`sequence
    ensures AllValid(SentBy(g.systemId, g.componentId, old(g.sequence), messages))
    ensures frames == FramesOf(SentBy(g.systemId, g.componentId, old(g.sequence), messages))
  {
    hide FrameOf, FramesOf, ToByte;
    ghost var n := g.sequence;
    ghost var sent := SentBy(g.systemId, g.componentId, n, messages);
    frames := [];
    NoFrames(sent);
    for i := 0 to |messages|
      invariant g.sequence == (n + i) % 0x1_0000_0000
      invariant AllValid(sent) && frames == FramesOf(sent[..i])
    {
      var frame := Generate(g, messages[i]);
      SuccessorWraps(n + i);
      LowByteSurvivesWrap(n + i + 1);
      FramesNext(sent, i);
      frames := frames + [frame];
    }
    assert sent[..|messages|] == sent;
  }

  lemma NoFrames(sent: seq<Sent>)
    ensures FramesOf(sent[..0]) == []
  {}
}
