/**
 From the wire to the graph: what a vehicle sends is what its track says once the frame has
 been generated, parsed, projected and written.
 */
module EndToEnd {
  import opened Checksum
  import opened Fields
  import opened Frames
  import opened Scan
  import opened Encoding
  import opened Generator
  import opened RoundTrip
  import opened Cop
  import opened GraphService
  import opened BirthProtocol
  import opened AsIfOnce
  import opened Projection
  import opened Tokens
  import M = MavlinkProjector
  import A = MavlinkAdapter

  // ---------- What a vehicle says, and where ----------

  /** Standby is state 3 and active is state 4; the top bit of the mode is the safety switch. */
  function StatusText(status: uint8, mode: uint8): string {
    (if status == 3 then "standby" else if status == 4 then "active" else "unknown")
    + "." + (if mode >= 128 then "armed" else "disarmed")
  }

  function TwoTo(n: nat): (p: nat)
    ensures p > 0
  {
    if n == 0 then 1 else 2 * TwoTo(n - 1)
  }

  /**
   The number behind the sign, exponent and fraction of an IEEE single: a whole multiple of
   two to the minus 150, since the smallest numbers lie two to the minus 149 apart.
   */
  function SingleOf(bits: uint32): real {
    var exponent, fraction := bits / 0x80_0000 % 0x100, bits % 0x80_0000;
    var units := if exponent == 0 then 2 * fraction else (0x80_0000 + fraction) * TwoTo(exponent);
    var magnitude := units as real / TwoTo(150) as real;
    if bits >= 0x8000_0000 then -magnitude else magnitude
  }

  /** An angle to hundredths; with all exponent bits set the signal is no number. */
  function Signal(bits: uint32): Value {
    if bits / 0x80_0000 % 0x100 == 255 then Rendered("NOT_FINITE", []) else Number(Hundredths(SingleOf(bits)))
  }

  /** What the fields of a message make its track say; longitude comes first. */
  function Reported(m: Message): Properties {
    match m
    case GlobalPosition(_, lat, lon, _, _, vx, vy, vz, _) =>
      map[TrackPosition := Rendered("POINT", [Some(lon as real / 10000000.0), Some(lat as real / 10000000.0)]),
          TrackVelocity := Rendered("NED_CMPS", [Some(vx as real), Some(vy as real), Some(vz as real)])]
    case Attitude(_, roll, pitch, yaw, _, _, _) =>
      map[TrackRoll := Signal(roll), TrackPitch := Signal(pitch), TrackYaw := Signal(yaw)]
    case Heartbeat(_, _, mode, _, status, _) => map[TrackStatus := Value.Text(StatusText(status, mode))]
    case BatteryStatus(_, _, _, _, _, _, _, _, remaining) => map[TrackBattery := Whole(remaining)]
    case _ => map[]
  }

  /** Where a statement comes from: the feed, how far it is trusted, when it was made and in which raw frame. */
  function Provenance(confidence: real, observedAt: int, rawRef: string): Properties {
    map[ProvenanceSource := Value.Text("mavlink"), ProvenanceConfidence := Number(confidence),
        ProvenanceObservedAt := Instant(observedAt)]
    + if rawRef != "" then map[ProvenanceSourceRef := Value.Text(rawRef)] else map[]
  }

  function SystemKey(c: Config, entityType: string, system: byte): string {
    c.org + "." + c.platform + ".cop.mavlink." + entityType + ".system-" + Decimal(system as nat)
  }

  function TrackSays(c: Config, s: Sent, observedAt: int, rawRef: string): Properties {
    var native := "mavlink.system." + Decimal(s.systemId as nat) + ".component." + Decimal(s.componentId as nat);
    map[TrackNativeId := Value.Text(native), TrackObservedAt := Instant(observedAt)]
    + Provenance(c.confidence, observedAt, rawRef) + Reported(s.message)
  }

  function AssetSays(c: Config, system: byte, observedAt: int, rawRef: string): Properties {
    map[AssetName := Value.Text("MAVLink system " + Decimal(system as nat)),
        AssetKind := Value.Text("mavlink-system"),
        AssetSource := Value.Text("mavlink"),
        AssetNativeId := Value.Text("mavlink.system." + Decimal(system as nat))]
    + Provenance(c.confidence, observedAt, rawRef)
  }

  /**
   The graph with one message of a vehicle in it: its asset exists, its track says what the
   message said, a newly born track points at the asset, and nothing else has changed.
   */
  function GraphWith(g: Graph, c: Config, s: Sent, observedAt: int, rawRef: string): Graph {
    var assetId, trackId := SystemKey(c, "asset", s.systemId), SystemKey(c, "track", s.systemId);
    var withAsset := Bearing(g, assetId, "semops.source.asset.v1", AssetSays(c, s.systemId, observedAt, rawRef));
    Saying(withAsset, trackId, "semops.mavlink.track.v1", TrackSays(c, s, observedAt, rawRef), map[TrackSource := Link(assetId)])
  }

  predicate IsCommand(m: Message) {
    m.CommandLong? || m.CommandAck?
  }

  // ---------- Fields of a delivered packet ----------

  lemma DeliveredField(s: Sent, i: nat)
    requires s.message.Valid() && i < |FieldsOf(s.message.Id())|
    ensures |FieldsOf(s.message.Id())| == |s.message.Values()|
    ensures M.Field(PacketOf(s), FieldsOf(s.message.Id())[i].name) == Some(s.message.Values()[i])
  {
    hide PacketOf, FieldsOf, Message.Values, Payload;
    PacketDelivers(s);
  }

  lemma DeliveredId(s: Sent)
    requires s.message.Valid()
    ensures PacketOf(s).messageId == s.message.Id()
    ensures PacketOf(s).systemId == s.systemId && PacketOf(s).componentId == s.componentId
  {
    hide Payload, CoveredBytes, ChecksumWithExtra;
  }

  // ---------- Numbers ----------

  lemma {:induction false} PowersShift(n: int, k: nat)
    requires n + k >= 0
    ensures M.PowerOfTwo(n) * TwoTo(k) as real == TwoTo(n + k) as real
    decreases k
  {
    hide M.PowerOfTwo, TwoTo;
    if k == 0 {
      PowersAgree(n);
    } else {
      TwoToStep(k);
      if n < 0 {
        PowersShift(n + 1, k - 1);
        PowerStep(n);
        Doubled(M.PowerOfTwo(n), TwoTo(k - 1) as real);
      } else {
        PowersShift(n, k - 1);
        TwoToStep(n + k);
        Doubled(M.PowerOfTwo(n), TwoTo(k - 1) as real);
      }
    }
  }

  lemma TwoToStep(k: nat)
    requires k > 0
    ensures TwoTo(k) as real == 2.0 * TwoTo(k - 1) as real
  {}

  lemma PowerStep(n: int)
    requires n < 0
    ensures 2.0 * M.PowerOfTwo(n) == M.PowerOfTwo(n + 1)
  {}

  lemma Doubled(x: real, y: real)
    ensures x * (2.0 * y) == 2.0 * (x * y) == (2.0 * x) * y
  {}

  lemma {:induction false} PowersAgree(n: nat)
    ensures M.PowerOfTwo(n) == TwoTo(n) as real
    ensures TwoTo(0) == 1
  {
    if n > 0 {
      PowersAgree(n - 1);
    }
  }

  lemma Quotient(x: real, m: real, p: real, q: real, r: real)
    requires x == m * p && p * q == r && q > 0.0
    ensures x == m * r / q
  {
    assert m * r == x * q;
  }

  lemma SmallMagnitude(fraction: nat)
    ensures fraction as real * M.PowerOfTwo(-149) == (2 * fraction) as real / TwoTo(150) as real
  {
    hide M.PowerOfTwo, TwoTo;
    PowersShift(-149, 150);
    TwoToOne();
    Quotient(fraction as real * M.PowerOfTwo(-149), fraction as real, M.PowerOfTwo(-149), TwoTo(150) as real, 2.0);
  }

  lemma TwoToOne()
    ensures TwoTo(1) == 2
  {}

  lemma LargeMagnitude(mantissa: nat, exponent: nat)
    ensures mantissa as real * M.PowerOfTwo(exponent - 150) == (mantissa * TwoTo(exponent)) as real / TwoTo(150) as real
  {
    hide M.PowerOfTwo, TwoTo;
    PowersShift(exponent - 150, 150);
    Quotient(mantissa as real * M.PowerOfTwo(exponent - 150), mantissa as real, M.PowerOfTwo(exponent - 150),
             TwoTo(150) as real, TwoTo(exponent) as real);
    ProductAsReal(mantissa, TwoTo(exponent));
  }

  lemma ProductAsReal(m: nat, n: nat)
    ensures (m * n) as real == m as real * n as real
  {}

  lemma SignBit(bits: uint32)
    ensures bits / 0x8000_0000 % 2 == 1 <==> bits >= 0x8000_0000
  {}

  /** The bits of a single are read as the number they stand for. */
  lemma SignalsAreRead(bits: uint32)
    ensures M.RoundedSignal(bits) == Signal(bits)
  {
    hide Hundredths, TwoTo, M.PowerOfTwo, M.SingleValue, SingleOf;
    SinglesAreRead(bits);
  }

  lemma SinglesAreRead(bits: uint32)
    ensures var number := M.SingleValue(bits);
      if bits / 0x80_0000 % 0x100 == 255 then number == None else number.Some? && number.value == SingleOf(bits)
  {
    hide TwoTo, M.PowerOfTwo;
    var exponent, fraction := bits / 0x80_0000 % 0x100, bits % 0x80_0000;
    SignBit(bits);
    if exponent == 0 {
      SmallMagnitude(fraction);
      SmallSingle(bits);
    } else {
      LargeMagnitude(0x80_0000 + fraction, exponent);
    }
  }

  lemma SmallSingle(bits: uint32)
    requires bits / 0x80_0000 % 0x100 == 0
    ensures var magnitude := (bits % 0x80_0000) as real * M.PowerOfTwo(-149);
      M.SingleValue(bits).Some? && M.SingleValue(bits).value == if bits >= 0x8000_0000 then -magnitude else magnitude
  {
    hide M.PowerOfTwo;
    SignBit(bits);
    var fraction := bits % 0x80_0000;
    if bits >= 0x8000_0000 {
      assert M.SingleValue(bits).value == -(fraction as real * M.PowerOfTwo(-149));
    } else {
      assert M.SingleValue(bits).value == fraction as real * M.PowerOfTwo(-149);
    }
  }

  lemma TriplesOfTwo(t0: Triple, t1: Triple)
    ensures AsMap([t0, t1]) == map[t0.predicate_ := t0.object_][t1.predicate_ := t1.object_]
  {
    AsMapStep([t0, t1], 0);
    AsMapStep([t0, t1], 1);
  }

  lemma PositionTriples(t: Stamp, s: Sent)
    requires s.message.GlobalPosition?
    ensures var triples := M.SpecificTriples(t, PacketOf(s)); triples != [] && AsMap(triples) == Reported(s.message)
  {
    hide PacketOf, M.Field, AsMap;
    DeliveredId(s);
    DeliveredField(s, 1);
    DeliveredField(s, 2);
    DeliveredField(s, 5);
    DeliveredField(s, 6);
    DeliveredField(s, 7);
    var triples := M.SpecificTriples(t, PacketOf(s));
    assert |triples| == 2 && triples == [triples[0], triples[1]];
    TriplesOfTwo(triples[0], triples[1]);
  }

  lemma AttitudeTriples(t: Stamp, s: Sent)
    requires s.message.Attitude?
    ensures var triples := M.SpecificTriples(t, PacketOf(s)); triples != [] && AsMap(triples) == Reported(s.message)
  {
    hide PacketOf, M.Field, M.RoundedSignal, Signal, AsMap;
    DeliveredId(s);
    DeliveredField(s, 1);
    DeliveredField(s, 2);
    DeliveredField(s, 3);
    SignalsAreRead(s.message.roll);
    SignalsAreRead(s.message.pitch);
    SignalsAreRead(s.message.yaw);
    var triples := M.SpecificTriples(t, PacketOf(s));
    assert |triples| == 3;
    NoTriples();
    AsMapStep(triples, 0);
    AsMapStep(triples, 1);
    AsMapStep(triples, 2);
  }

  lemma HeartbeatTriples(t: Stamp, s: Sent)
    requires s.message.Heartbeat?
    ensures var triples := M.SpecificTriples(t, PacketOf(s)); triples != [] && AsMap(triples) == Reported(s.message)
  {
    hide PacketOf, M.Field, AsMap;
    DeliveredId(s);
    DeliveredField(s, 3);
    DeliveredField(s, 4);
    AsMapOfOne(M.SpecificTriples(t, PacketOf(s))[0]);
  }

  lemma BatteryTriples(t: Stamp, s: Sent)
    requires s.message.BatteryStatus? && s.message.Valid()
    ensures var triples := M.SpecificTriples(t, PacketOf(s)); triples != [] && AsMap(triples) == Reported(s.message)
  {
    hide PacketOf, M.Field, AsMap;
    DeliveredId(s);
    DeliveredField(s, 8);
    AsMapOfOne(M.SpecificTriples(t, PacketOf(s))[0]);
  }

  lemma MessageIsReported(t: Stamp, s: Sent)
    requires s.message.Valid() && !IsCommand(s.message)
    ensures var triples := M.SpecificTriples(t, PacketOf(s)); triples != [] && AsMap(triples) == Reported(s.message)
  {
    hide PacketOf, M.SpecificTriples, Reported, AsMap;
    match s.message {
      case GlobalPosition(_, _, _, _, _, _, _, _, _) => PositionTriples(t, s);
      case Attitude(_, _, _, _, _, _, _) => AttitudeTriples(t, s);
      case Heartbeat(_, _, _, _, _, _) => HeartbeatTriples(t, s);
      case BatteryStatus(_, _, _, _, _, _, _, _, _) => BatteryTriples(t, s);
    }
  }

  // ---------- What the triples say ----------

  lemma ProvenanceIsSaid(triples: seq<Triple>, t: Stamp, rawRef: string)
    requires |triples| == 3 && t.source == "mavlink"
    requires triples[0] == t.Say(ProvenanceSource, Value.Text("mavlink"))
    requires triples[1] == t.Say(ProvenanceConfidence, Number(t.confidence))
    requires triples[2] == t.Say(ProvenanceObservedAt, Instant(t.time))
    ensures AsMap(triples + IfSome(rawRef != "", t.Say(ProvenanceSourceRef, Value.Text(rawRef))))
         == Provenance(t.confidence, t.time, rawRef)
  {
    hide AsMap, IfSome;
    NoTriples();
    AsMapIfSome(triples, rawRef != "", t.Say(ProvenanceSourceRef, Value.Text(rawRef)));
    AsMapStep(triples, 0);
    AsMapStep(triples, 1);
    AsMapStep(triples, 2);
  }

  lemma BaseSays(c: Config, r: M.Report)
    ensures var native := "mavlink.system." + Decimal(r.packet.systemId as nat) + ".component." + Decimal(r.packet.componentId as nat);
      AsMap(M.BaseTriples(c, r))
      == map[TrackNativeId := Value.Text(native), TrackObservedAt := Instant(r.observedAt)]
         + Provenance(c.confidence, r.observedAt, r.sourceRef)
  {
    hide AsMap, Decimal, M.TrackId, IfSome, Provenance;
    var t := M.StampOf(c, r, M.TrackId(c, r.packet.systemId));
    var first := [t.Say(TrackNativeId, Value.Text(M.NativeId(r.packet))), t.Say(TrackObservedAt, Instant(r.observedAt))];
    var second := [t.Say(ProvenanceSource, Value.Text("mavlink")), t.Say(ProvenanceConfidence, Number(c.confidence)),
                   t.Say(ProvenanceObservedAt, Instant(r.observedAt))];
    var ref := t.Say(ProvenanceSourceRef, Value.Text(r.sourceRef));
    assert M.BaseTriples(c, r) == first + (second + IfSome(r.sourceRef != "", ref));
    AsMapAppend(first, second + IfSome(r.sourceRef != "", ref));
    TriplesOfTwo(first[0], first[1]);
    ProvenanceIsSaid(second, t, r.sourceRef);
  }

  lemma TrackSpeaks(c: Config, s: Sent, r: M.Report)
    requires s.message.Valid() && !IsCommand(s.message) && r.packet == PacketOf(s)
    ensures M.TrackTriples(c, r) != [] && AsMap(M.TrackTriples(c, r)) == TrackSays(c, s, r.observedAt, r.sourceRef)
  {
    hide PacketOf, M.SpecificTriples, M.BaseTriples, M.TrackId, AsMap, Provenance, Reported, Decimal;
    var t := M.StampOf(c, r, M.TrackId(c, r.packet.systemId));
    DeliveredId(s);
    MessageIsReported(t, s);
    BaseSays(c, r);
    AsMapAppend(M.BaseTriples(c, r), M.SpecificTriples(t, r.packet));
  }

  lemma AssetSpeaks(c: Config, r: M.Report)
    ensures AsMap(M.SourceAssetTriples(c, r)) == AssetSays(c, r.packet.systemId, r.observedAt, r.sourceRef)
  {
    hide AsMap, Decimal, M.SourceAssetId, Provenance;
    var t := M.StampOf(c, r, M.SourceAssetId(c, r.packet.systemId));
    var system := Decimal(ToNat(r.packet.systemId));
    var first := [t.Say(AssetName, Value.Text("MAVLink system " + system)), t.Say(AssetKind, Value.Text("mavlink-system"))];
    var more := [t.Say(AssetSource, Value.Text("mavlink")), t.Say(AssetNativeId, Value.Text("mavlink.system." + system))];
    var second := [t.Say(ProvenanceSource, Value.Text("mavlink")), t.Say(ProvenanceConfidence, Number(c.confidence)),
                   t.Say(ProvenanceObservedAt, Instant(r.observedAt))];
    var ref := t.Say(ProvenanceSourceRef, Value.Text(r.sourceRef));
    assert M.SourceAssetTriples(c, r) == (first + more) + (second + IfSome(r.sourceRef != "", ref));
    AsMapAppend(first + more, second + IfSome(r.sourceRef != "", ref));
    AsMapAppend(first, more);
    TriplesOfTwo(first[0], first[1]);
    TriplesOfTwo(more[0], more[1]);
    ProvenanceIsSaid(second, t, r.sourceRef);
  }

  // ---------- Into the graph ----------

  lemma KeysAreWritten(c: Config, system: byte)
    ensures M.TrackId(c, system) == SystemKey(c, "track", system)
    ensures M.SourceAssetId(c, system) == SystemKey(c, "asset", system)
  {
    hide Key, Decimal;
    KeyShape(c.org, c.platform, "mavlink", "track", M.Instance(system));
    KeyShape(c.org, c.platform, "mavlink", "asset", M.Instance(system));
  }

  lemma EffectIsShown(g: Graph, c: Config, s: Sent, r: M.Report)
    requires s.message.Valid() && !IsCommand(s.message) && r.packet == PacketOf(s)
    ensures Effect(g, M.IntentsOf(c, Some(r))) == GraphWith(g, c, s, r.observedAt, r.sourceRef)
  {
    hide PacketOf, M.TrackTriples, M.SourceAssetTriples, M.TrackId, M.SourceAssetId, AsMap, Effect, SystemKey, TrackSays, AssetSays;
    DeliveredId(s);
    TrackSpeaks(c, s, r);
    AssetSpeaks(c, r);
    KeysAreWritten(c, s.systemId);
    SourcedEffect(g, M.SourceAssetId(c, s.systemId), M.SourceAssetTriples(c, r), M.TrackId(c, s.systemId),
                  MavlinkTrackContract(), M.TrackTriples(c, r), M.SourceEdge(c, r));
  }

  /**
   A frame that any vehicle sends about its position, attitude, battery or state: a parser
   with an empty buffer makes one packet of it, and whenever the plan for that packet is
   reported written, under honest faults and whatever retries, the graph is the one before
   with exactly this message in it.
   */
  lemma SentIsShown(c: Config, s: Sent, parsedAt: int, rawRef: string, born: Born, w: World)
    requires s.message.Valid() && !IsCommand(s.message) && w.Honest() && BornIn(born, w.graph.Keys)
    ensures var packets := ScanStream(FrameOf(s), StandardSpecs()).packets;
      var o := WriteJob(M.JobOf(c, A.ReportOf(packets, parsedAt, rawRef)), A.ATTEMPTS, born, w);
      o.status.Written? ==> o.world.graph == GraphWith(w.graph, c, s, parsedAt, rawRef)
  {
    hide ScanStream, FrameOf, StandardSpecs, PacketOf, WriteJob, M.IntentsOf, GraphWith, Effect, BornIn, Job.Valid,
      CreateIncludesUpdate, M.Markable;
    OneFrame(s);
    DeliveredId(s);
    var r := M.Report(PacketOf(s), parsedAt, rawRef);
    M.JobIsSound(c, Some(r));
    CallIsAsIfOnce(M.JobOf(c, Some(r)), A.ATTEMPTS, born, w);
    EffectIsShown(w.graph, c, s, r);
  }

  lemma TrackIsSigned(c: Config, r: M.Report)
    ensures Signed(M.TrackTriples(c, r), M.TrackId(c, r.packet.systemId), "mavlink", r.observedAt, c.confidence)
  {
    hide M.TrackId, M.NativeId, M.WktPoint, M.NedVelocity, M.RoundedSignal, M.Field;
  }

  /** Every mutation of a packet is signed by the feed, with the time and confidence of the packet in every triple. */
  lemma PacketIsSigned(c: Config, r: M.Report, born: Born)
    ensures forall m <- PlanOf(M.IntentsOf(c, Some(r)), born) ::
      if m.id == SystemKey(c, "asset", r.packet.systemId)
      then SignedBy(m, "semops.feed.asset", "control", "mavlink", r.observedAt, c.confidence)
      else m.id == SystemKey(c, "track", r.packet.systemId)
           && SignedBy(m, "semops.feed.mavlink", "signal", "mavlink", r.observedAt, c.confidence)
  {
    hide M.TrackId, M.SourceAssetId, SystemKey, M.TrackTriples, PlanOf, KindOfId;
    KeysAreWritten(c, r.packet.systemId);
    M.IdKinds(c, r.packet.systemId);
    TrackIsSigned(c, r);
    PlanElements(M.IntentsOf(c, Some(r)), born);
  }

  /** Commands and their acknowledgements are decoded but never written. */
  lemma CommandsAreNotProjected(c: Config, s: Sent, parsedAt: int, rawRef: string)
    requires s.message.Valid() && IsCommand(s.message)
    ensures var packets := ScanStream(FrameOf(s), StandardSpecs()).packets;
      |packets| == 1 && Delivers(packets[0], s) && M.JobOf(c, A.ReportOf(packets, parsedAt, rawRef)).intents == []
  {
    hide ScanStream, FrameOf, StandardSpecs, PacketOf, Delivers, M.TrackId, M.BaseTriples;
    OneFrame(s);
    DeliveredId(s);
    PacketDelivers(s);
  }
}
