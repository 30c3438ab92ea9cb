/**
 MAVLink packets to graph mutations (internal/projectors/mavlink/projector.go): a track for
 the vehicle and a source asset that the track points at.
 */
module MavlinkProjector {
  import opened Checksum
  import opened Fields
  import opened Frames
  import opened Cop
  import opened GraphService
  import opened BirthProtocol
  import opened AsIfOnce
  import opened Projection
  import opened Tokens

  const STATE_STANDBY: uint8 := 3
  const STATE_ACTIVE: uint8 := 4
  const SAFETY_ARMED: uint8 := 128

  const DEFAULT_CONFIDENCE := 1.0

  /** A packet with the time it was observed at and the reference of its raw record. */
  datatype Report = Report(packet: Packet, observedAt: int, sourceRef: string)

  // ---------- Fields of a packet ----------

  function Field(p: Packet, name: string): Option<FieldValue> {
    if p.fields.None? || name !in p.fields.value then None else Some(p.fields.value[name])
  }

  function U8(v: Option<FieldValue>): Option<int> {
    if v.Some? && v.value.Uint8? then Some(v.value.u8) else None
  }

  function I8(v: Option<FieldValue>): Option<int> {
    if v.Some? && v.value.Int8? then Some(v.value.i8) else None
  }

  function I16(v: Option<FieldValue>): Option<int> {
    if v.Some? && v.value.Int16? then Some(v.value.i16) else None
  }

  function I32(v: Option<FieldValue>): Option<int> {
    if v.Some? && v.value.Int32? then Some(v.value.i32) else None
  }

  function F32(v: Option<FieldValue>): Option<int> {
    if v.Some? && v.value.Float32? then Some(v.value.bits32) else None
  }

  function HeartbeatStatus(p: Packet): Option<string> {
    var status := U8(Field(p, "system_status"));
    if status.None? then None
    else
      var mode := U8(Field(p, "base_mode"));
      var state := if status.value == STATE_STANDBY then "standby" else if status.value == STATE_ACTIVE then "active" else "unknown";
      var armed := if mode.Some? && mode.value / SAFETY_ARMED % 2 == 1 then "armed" else "disarmed";
      Some(state + "." + armed)
  }

  function WktPoint(latE7: int, lonE7: int): Value {
    Rendered("POINT", [Some(lonE7 as real / 10000000.0), Some(latE7 as real / 10000000.0)])
  }

  function NedVelocity(vx: int, vy: int, vz: int): Value {
    Rendered("NED_CMPS", [Some(vx as real), Some(vy as real), Some(vz as real)])
  }

  function PowerOfTwo(n: int): real
    decreases if n >= 0 then n else -n
  {
    if n == 0 then 1.0 else if n > 0 then 2.0 * PowerOfTwo(n - 1) else PowerOfTwo(n + 1) / 2.0
  }

  /** The number that the bits of an IEEE single stand for; none for infinities and not-a-numbers. */
  function SingleValue(bits: int): Option<real> {
    var exponent, fraction := bits / 0x80_0000 % 0x100, bits % 0x80_0000;
    var magnitude :=
      if exponent == 0 then fraction as real * PowerOfTwo(-149)
      else (0x80_0000 + fraction) as real * PowerOfTwo(exponent - 150);
    if exponent == 0xff then None else Some(if bits / 0x8000_0000 % 2 == 1 then -magnitude else magnitude)
  }

  /** The float with the given bit pattern, rounded to hundredths. */
  function RoundedSignal(bits: int): Value {
    match SingleValue(bits)
    case None => Rendered("NOT_FINITE", [])
    case Some(x) => Number(Hundredths(x))
  }

  // ---------- Ids ----------

  function Instance(system: byte): string {
    "system-" + Decimal(ToNat(system))
  }

  function SourceAssetId(c: Config, system: byte): string {
    Key(c.org, c.platform, "mavlink", ENTITY_ASSET, Instance(system))
  }

  function TrackId(c: Config, system: byte): string {
    Key(c.org, c.platform, "mavlink", ENTITY_TRACK, Instance(system))
  }

  function NativeId(p: Packet): string {
    "mavlink.system." + Decimal(ToNat(p.systemId)) + ".component." + Decimal(ToNat(p.componentId))
  }

  // ---------- Triples ----------

  function StampOf(c: Config, r: Report, subject: string): Stamp {
    Stamp(subject, "mavlink", r.observedAt, c.confidence)
  }

  function BaseTriples(c: Config, r: Report): seq<Triple> {
    var s := StampOf(c, r, TrackId(c, r.packet.systemId));
    [s.Say(TrackNativeId, Value.Text(NativeId(r.packet))),
     s.Say(TrackObservedAt, Instant(r.observedAt)),
     s.Say(ProvenanceSource, Value.Text("mavlink")),
     s.Say(ProvenanceConfidence, Number(c.confidence)),
     s.Say(ProvenanceObservedAt, Instant(r.observedAt))]
    + IfSome(r.sourceRef != "", s.Say(ProvenanceSourceRef, Value.Text(r.sourceRef)))
  }

  function PositionTriples(s: Stamp, p: Packet): seq<Triple> {
    var lat, lon := I32(Field(p, "lat")), I32(Field(p, "lon"));
    var vx, vy, vz := I16(Field(p, "vx")), I16(Field(p, "vy")), I16(Field(p, "vz"));
    (if lat.Some? && lon.Some? then [s.Say(TrackPosition, WktPoint(lat.value, lon.value))] else [])
    + (if vx.Some? && vy.Some? && vz.Some? then [s.Say(TrackVelocity, NedVelocity(vx.value, vy.value, vz.value))] else [])
  }

  function SignalTriple(s: Stamp, predicate_: Predicate, v: Option<int>): seq<Triple> {
    if v.Some? then [s.Say(predicate_, RoundedSignal(v.value))] else []
  }

  function AttitudeTriples(s: Stamp, p: Packet): seq<Triple> {
    SignalTriple(s, TrackRoll, F32(Field(p, "roll")))
    + SignalTriple(s, TrackPitch, F32(Field(p, "pitch")))
    + SignalTriple(s, TrackYaw, F32(Field(p, "yaw")))
  }

  /** What the message of this packet says about the vehicle; nothing if none of its fields was read. */
  function SpecificTriples(s: Stamp, p: Packet): seq<Triple> {
    if p.messageId == HEARTBEAT then
      var status := HeartbeatStatus(p);
      if status.Some? then [s.Say(TrackStatus, Value.Text(status.value))] else []
    else if p.messageId == GLOBAL_POSITION_INT then PositionTriples(s, p)
    else if p.messageId == ATTITUDE then AttitudeTriples(s, p)
    else if p.messageId == BATTERY_STATUS then
      var remaining := I8(Field(p, "battery_remaining"));
      if remaining.Some? then [s.Say(TrackBattery, Whole(remaining.value))] else []
    else []
  }

  function TrackTriples(c: Config, r: Report): seq<Triple> {
    var specific := SpecificTriples(StampOf(c, r, TrackId(c, r.packet.systemId)), r.packet);
    if specific == [] then [] else BaseTriples(c, r) + specific
  }

  function SourceAssetTriples(c: Config, r: Report): seq<Triple> {
    var s := StampOf(c, r, SourceAssetId(c, r.packet.systemId));
    [s.Say(AssetName, Value.Text("MAVLink system " + Decimal(ToNat(r.packet.systemId)))),
     s.Say(AssetKind, Value.Text("mavlink-system")),
     s.Say(AssetSource, Value.Text("mavlink")),
     s.Say(AssetNativeId, Value.Text("mavlink.system." + Decimal(ToNat(r.packet.systemId)))),
     s.Say(ProvenanceSource, Value.Text("mavlink")),
     s.Say(ProvenanceConfidence, Number(c.confidence)),
     s.Say(ProvenanceObservedAt, Instant(r.observedAt))]
    + IfSome(r.sourceRef != "", s.Say(ProvenanceSourceRef, Value.Text(r.sourceRef)))
  }

  /** The strict edge that only the birth of a track carries. */
  function SourceEdge(c: Config, r: Report): Triple {
    StampOf(c, r, TrackId(c, r.packet.systemId)).Say(TrackSource, Link(SourceAssetId(c, r.packet.systemId)))
  }

  // ---------- Intents ----------

  function AssetIntent(c: Config, r: Report): Intent {
    AssetBirth(SourceAssetId(c, r.packet.systemId), SourceAssetTriples(c, r))
  }

  function TrackIntent(c: Config, r: Report): Intent {
    SourcedTrack(TrackId(c, r.packet.systemId), MavlinkTrackContract(), TrackTriples(c, r), SourceEdge(c, r))
  }

  function IntentsOf(c: Config, input: Option<Report>): seq<Intent> {
    if input.None? || TrackTriples(c, input.value) == [] then []
    else [AssetIntent(c, input.value), TrackIntent(c, input.value)]
  }

  function PartsOf(c: Config, inputs: seq<Option<Report>>): seq<seq<Intent>> {
    seq(|inputs|, i requires 0 <= i < |inputs| => IntentsOf(c, inputs[i]))
  }

  /** The entities whose births a packet can teach. */
  function Markable(c: Config, input: Option<Report>): seq<Ref> {
    if input.None? then []
    else
      var system := input.value.packet.systemId;
      [Ref(Asset, SourceAssetId(c, system)), Ref(Track, TrackId(c, system))]
  }

  function JobOf(c: Config, input: Option<Report>): Job {
    Job(IntentsOf(c, input), Markable(c, input))
  }

  /** The message types that MarkBornForPlan knows. */
  function Kinds(): map<string, Kind> {
    map[SourceAssetContract().messageType := Asset, MavlinkTrackContract().messageType := Track]
  }

  function BornOf(assets: set<string>, tracks: set<string>): Born {
    Tagged(Asset, assets) + Tagged(Track, tracks)
  }

  class Projector {
    const config: Config
    var bornAssets: set<string>
    var bornTracks: set<string>

    ghost function Born(): Born
      reads this
    {
      BornOf(bornAssets, bornTracks)
    }

    constructor (config: Config)
      ensures this.config == WithDefaults(config, 1.0) && Born() == {}
    {
      var completed := config;
      if completed.org == "" {
        completed := completed.(org := "c360");
      }
      if completed.platform == "" {
        completed := completed.(platform := "edge");
      }
      if completed.confidence == 0.0 {
        completed := completed.(confidence := DEFAULT_CONFIDENCE);
      }
      this.config := completed;
      bornAssets, bornTracks := {}, {};
    }

    method ProjectPacket(input: Option<Report>) returns (plan: Plan)
      ensures plan == PlanOf(IntentsOf(config, input), Born())
    {
      var assets, tracks;
      plan, assets, tracks := ProjectWith(input, bornAssets, bornTracks);
    }

    method ProjectPackets(inputs: seq<Option<Report>>) returns (plan: Plan)
      ensures plan == PlanOf(Concat(PartsOf(config, inputs)), Born())
    {
      hide IntentsOf, BornOf, PlanOf, RefsOf, Concat;
      ghost var parts := PartsOf(config, inputs);
      var assets, tracks := bornAssets, bornTracks;
      plan := [];
      ConcatStarts(parts, Born());
      for i := 0 to |inputs|
        invariant plan == PlanOf(Concat(parts[..i]), Born())
        invariant BornOf(assets, tracks) == Born() + RefsOf(Concat(parts[..i]))
      {
        ConcatGrows(parts, i, Born());
        var next;
        next, assets, tracks := ProjectWith(inputs[i], assets, tracks);
        plan := plan + next;
      }
      assert parts[..|inputs|] == parts;
    }

    /** projectPacket: the plan for one packet, and the local born sets after it. */
    method ProjectWith(input: Option<Report>, bornAssets: set<string>, bornTracks: set<string>)
      returns (plan: Plan, assets: set<string>, tracks: set<string>)
      ensures plan == PlanOf(IntentsOf(config, input), BornOf(bornAssets, bornTracks))
      ensures BornOf(assets, tracks) == BornOf(bornAssets, bornTracks) + RefsOf(IntentsOf(config, input))
    {
      hide TrackTriples, SourceAssetTriples, Key, PlanOf, RefsOf, BornOf;
      plan, assets, tracks := [], bornAssets, bornTracks;
      NoIntents(BornOf(bornAssets, bornTracks));
      if input.None? {
        return;
      }
      var r := input.value;
      var trackTriples := TrackTriples(config, r);
      if trackTriples == [] {
        return;
      }
      var assetId := SourceAssetId(config, r.packet.systemId);
      var trackId := TrackId(config, r.packet.systemId);
      PlanOfTwo(AssetIntent(config, r), TrackIntent(config, r), BornOf(bornAssets, bornTracks));
      AssetBorn(assets, tracks, assetId);
      if assetId !in assets {
        plan := plan + [Create(assetId, SourceAssetContract().messageType, SourceAssetTriples(config, r),
                               SourceAssetContract().indexingProfile, OWNER_ASSET)];
        assets := assets + {assetId};
      }
      TrackBorn(assets, tracks, trackId);
      if trackId !in tracks {
        plan := plan + [Create(trackId, MavlinkTrackContract().messageType, trackTriples + [SourceEdge(config, r)],
                               MavlinkTrackContract().indexingProfile, OWNER_MAVLINK)];
        tracks := tracks + {trackId};
        return;
      }
      plan := plan + [Update(trackId, trackTriples, MavlinkTrackContract().indexingProfile, OWNER_MAVLINK)];
    }

    method MarkBornForPlan(plan: Plan) returns (marked: nat)
      modifies this
      ensures Born() == old(Born()) + Births(plan, Kinds())
      ensures marked == |Born()| - |old(Born())|
    {
      hide Kinds, BirthOf, BornOf, Births, Plus;
      NoBirthsYet(plan, Kinds(), Asset, Born());
      marked := 0;
      for i := 0 to |plan|
        invariant Born() == old(Born()) + Births(plan[..i], Kinds())
        invariant marked == |Born()| - |old(Born())|
      {
        BirthsGrow(plan, Kinds(), i);
        PlusMoves(old(Born()), Births(plan[..i], Kinds()), BirthOf(plan[i], Kinds()));
        if plan[i].Create? {
          var isNew := MarkBornEntity(plan[i]);
          if isNew {
            marked := marked + 1;
          }
        } else {
          NoBirth(plan[i], Kinds(), Born());
        }
      }
      assert plan[..|plan|] == plan;
    }

    method MarkBornEntity(m: Mutation) returns (marked: bool)
      requires m.Create?
      modifies this
      ensures Born() == Plus(old(Born()), BirthOf(m, Kinds()))
      ensures |Born()| == |old(Born())| + if marked then 1 else 0
    {
      hide BornOf, Kinds;
      KindsAreKeyed();
      if m.id == "" {
        return false;
      }
      if m.messageType == SourceAssetContract().messageType {
        AssetBorn(bornAssets, bornTracks, m.id);
        marked := m.id !in bornAssets;
        bornAssets := bornAssets + {m.id};
      } else if m.messageType == MavlinkTrackContract().messageType {
        TrackBorn(bornAssets, bornTracks, m.id);
        marked := m.id !in bornTracks;
        bornTracks := bornTracks + {m.id};
      } else {
        marked := false;
      }
    }

    method MarkBornForPacket(input: Option<Report>, entityId: string) returns (known: bool)
      modifies this
      ensures var ref := Marked(Markable(config, input), entityId);
        known == ref.Some? && Born() == Plus(old(Born()), ref)
    {
      hide Key, BornOf;
      if input.None? || entityId == "" {
        MarkablesAreNamed(config, input, entityId);
        return false;
      }
      MarkedOfTwo(config, input.value, entityId);
      if entityId == SourceAssetId(config, input.value.packet.systemId) {
        AssetBorn(bornAssets, bornTracks, entityId);
        bornAssets := bornAssets + {entityId};
        known := true;
      } else if entityId == TrackId(config, input.value.packet.systemId) {
        TrackBorn(bornAssets, bornTracks, entityId);
        bornTracks := bornTracks + {entityId};
        known := true;
      } else {
        known := false;
      }
    }
  }

  // ---------- Facts behind the methods ----------

  lemma AssetBorn(assets: set<string>, tracks: set<string>, id: string)
    ensures Ref(Asset, id) in BornOf(assets, tracks) <==> id in assets
    ensures BornOf(assets + {id}, tracks) == BornOf(assets, tracks) + {Ref(Asset, id)}
  {
    TaggedAdds(Asset, assets, id);
  }

  lemma TrackBorn(assets: set<string>, tracks: set<string>, id: string)
    ensures Ref(Track, id) in BornOf(assets, tracks) <==> id in tracks
    ensures BornOf(assets, tracks + {id}) == BornOf(assets, tracks) + {Ref(Track, id)}
  {
    TaggedAdds(Track, tracks, id);
  }

  lemma KindsAreKeyed()
    ensures SourceAssetContract().messageType != MavlinkTrackContract().messageType
    ensures Kinds().Keys == {SourceAssetContract().messageType, MavlinkTrackContract().messageType}
    ensures Kinds()[SourceAssetContract().messageType] == Asset && Kinds()[MavlinkTrackContract().messageType] == Track
    ensures KindOf(SourceAssetContract().messageType) == Asset && KindOf(MavlinkTrackContract().messageType) == Track
  {
    assert SourceAssetContract().messageType[7] != MavlinkTrackContract().messageType[7];
  }

  lemma InstanceIsSegment(system: byte)
    ensures IsSegment(Instance(system))
  {
    hide Decimal;
    DecimalIsSegment(ToNat(system));
  }

  lemma IdKinds(c: Config, system: byte)
    ensures KindOfId(SourceAssetId(c, system)) == Asset && KindOfId(TrackId(c, system)) == Track
    ensures SourceAssetId(c, system) != "" && TrackId(c, system) != ""
  {
    hide Key, TypeOfId, Instance;
    InstanceIsSegment(system);
    TypeOfKey(c.org, c.platform, "mavlink", ENTITY_ASSET, Instance(system));
    TypeOfKey(c.org, c.platform, "mavlink", ENTITY_TRACK, Instance(system));
  }

  lemma MarkedOfTwo(c: Config, r: Report, id: string)
    ensures var (a, t) := (SourceAssetId(c, r.packet.systemId), TrackId(c, r.packet.systemId));
      Marked(Markable(c, Some(r)), id) == if id == a then Some(Ref(Asset, a)) else if id == t then Some(Ref(Track, t)) else None
  {
    hide Key;
    var m := Markable(c, Some(r));
    assert m == [m[0]] + [m[1]];
    MarkedFirst(m[0], [m[1]], id);
    MarkedOfOne(m[1], id);
  }

  lemma MarkablesAreNamed(c: Config, input: Option<Report>, id: string)
    requires input.None? || id == ""
    ensures Marked(Markable(c, input), id).None?
  {
    hide Key;
    if input.Some? {
      IdKinds(c, input.value.packet.systemId);
      MarkedOfTwo(c, input.value, id);
    }
  }

  // ---------- The jobs are valid ----------

  lemma TrackTriplesStayOwned(c: Config, r: Report)
    ensures Within(TrackTriples(c, r), TrackId(c, r.packet.systemId), MavlinkTrackContract().predicates)
  {
    hide TrackId, Field, HeartbeatStatus, NativeId;
    var id, owned := TrackId(c, r.packet.systemId), MavlinkTrackContract().predicates;
    var s := StampOf(c, r, id);
    assert Within(BaseTriples(c, r), id, owned);
    assert Within(PositionTriples(s, r.packet), id, owned);
    assert Within(AttitudeTriples(s, r.packet), id, owned);
    assert Within(SpecificTriples(s, r.packet), id, owned);
    WithinAppend(BaseTriples(c, r), SpecificTriples(s, r.packet), id, owned);
  }

  lemma AssetTriplesStayOwned(c: Config, r: Report)
    ensures Within(SourceAssetTriples(c, r), SourceAssetId(c, r.packet.systemId), SourceAssetContract().predicates)
  {
    hide SourceAssetId;
  }

  lemma IntentsAreWellFormed(c: Config, r: Report)
    ensures AssetIntent(c, r).WellFormed() && TrackIntent(c, r).WellFormed()
    ensures Announces([AssetIntent(c, r), TrackIntent(c, r)], Kinds())
  {
    hide SourceAssetId, TrackId, KindOf, KindOfId, Kinds;
    IdKinds(c, r.packet.systemId);
    KindsAreKeyed();
  }

  /**
   Whatever a packet holds: its intents are well formed and concern at most two entities,
   a track's edge points at an asset born before it, the births of both can be learnt from
   a conflict, and a birth includes what an update would have written.
   */
  lemma JobIsSound(c: Config, input: Option<Report>)
    ensures SoundJob(JobOf(c, input), 2) && Announces(IntentsOf(c, input), Kinds())
  {
    hide SourceAssetId, TrackId, KindOf, KindOfId, TrackTriples, SourceAssetTriples, Kinds, SoundJob;
    if IntentsOf(c, input) == [] {
      NoJob(Markable(c, input), 2);
    } else {
      var r := input.value;
      var assetId, trackId := SourceAssetId(c, r.packet.systemId), TrackId(c, r.packet.systemId);
      TrackTriplesStayOwned(c, r);
      AssetTriplesStayOwned(c, r);
      IntentsAreWellFormed(c, r);
      IdKinds(c, r.packet.systemId);
      KindsAreKeyed();
      MarkedOfTwo(c, r, assetId);
      MarkedOfTwo(c, r, trackId);
      SourcedJob(assetId, SourceAssetTriples(c, r), trackId, MavlinkTrackContract(), TrackTriples(c, r), SourceEdge(c, r),
                 Markable(c, input));
    }
  }

  /** Different vehicles never share an entity. */
  lemma SystemsDoNotCollide(c: Config, a: byte, b: byte)
    requires TrackId(c, a) == TrackId(c, b) || SourceAssetId(c, a) == SourceAssetId(c, b)
    ensures a == b
  {
    hide Decimal, Key;
    SameKeySameInstance(c.org, c.platform, "mavlink", ENTITY_TRACK, Instance(a), Instance(b));
    SameKeySameInstance(c.org, c.platform, "mavlink", ENTITY_ASSET, Instance(a), Instance(b));
    assert Instance(a)[|"system-"|..] == Decimal(ToNat(a)) && Instance(b)[|"system-"|..] == Decimal(ToNat(b));
    DecimalInjective(ToNat(a), ToNat(b));
  }

  /** ProjectPackets gives the plans of single packets with MarkBornForPlan after each, and creates nothing twice. */
  lemma BatchIsSequential(c: Config, inputs: seq<Option<Report>>, born: Born)
    ensures FaithfulBatch(PartsOf(c, inputs), born)
  {
    hide IntentsOf, Markable, FaithfulBatch, Kinds, CreateIncludesUpdate, RefsOf, EdgesBornFirst;
    forall i | 0 <= i < |inputs|
      ensures AllWellFormed(IntentsOf(c, inputs[i]))
    {
      JobIsSound(c, inputs[i]);
    }
    BatchIsFaithful(PartsOf(c, inputs), born);
  }
}
