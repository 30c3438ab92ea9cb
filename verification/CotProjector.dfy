/**
 CoT events to graph mutations (internal/projectors/cot/projector.go): GeoChat becomes an
 advisory, a marker a task, and an operator or air position a track with its source asset.
 */
module CotProjector {
  import opened Checksum
  import opened Cop
  import opened GraphService
  import opened BirthProtocol
  import opened AsIfOnce
  import opened Projection
  import opened Tokens
  import C = Cot

  const DEFAULT_CONFIDENCE := 1.0

  /** An event, the reference of its raw record, and the clock that stands in for a missing time. */
  datatype SourceEvent = SourceEvent(event: C.Event, sourceRef: string, clock: nat)

  function ObservedAt(s: SourceEvent): nat {
    if s.event.time == 0 then s.clock else s.event.time
  }

  // ---------- Ids ----------

  function EntityId(c: Config, entityType: string, uid: string): string {
    Key(if c.org == "" then "c360" else c.org, if c.platform == "" then "edge" else c.platform, "tak", entityType, EntityToken(uid))
  }

  function SourceAssetId(c: Config, uid: string): string { EntityId(c, ENTITY_ASSET, uid) }

  function TrackId(c: Config, uid: string): string { EntityId(c, ENTITY_TRACK, uid) }

  function TaskId(c: Config, uid: string): string { EntityId(c, ENTITY_TASK, uid) }

  function AdvisoryId(c: Config, uid: string): string { EntityId(c, ENTITY_ADVISORY, uid) }

  function NativeId(uid: string): string {
    "cot.uid." + TrimSpace(uid)
  }

  // ---------- Triples ----------

  function StampOf(c: Config, s: SourceEvent, subject: string): Stamp {
    Stamp(subject, "tak-cot", ObservedAt(s), c.confidence)
  }

  function WktPoint(p: C.Point): Value {
    Rendered("POINT", [Some(SevenDecimals(p.lon)), Some(SevenDecimals(p.lat))])
  }

  function CourseSpeed(e: C.Event): Value {
    Rendered("COURSE_SPEED_MPS", [Some(Hundredths(e.courseDeg)), Some(Hundredths(e.speedMps))])
  }

  function StatusFor(s: SourceEvent, kind: string): string {
    var state := if s.event.stale != 0 && ObservedAt(s) > s.event.stale then "stale" else "active";
    if kind == "" then state else state + "." + kind
  }

  function TrackKind(e: C.Event): string {
    if C.IsAirTrackType(e.kind) then "air-track" else "operator"
  }

  function AdvisoryWords(e: C.Event): string {
    FirstNonEmpty([e.chatText, e.remarks])
  }

  function ProvenanceTriples(c: Config, s: SourceEvent, subject: string): seq<Triple> {
    var t := StampOf(c, s, subject);
    [t.Say(ProvenanceSource, Text("tak-cot")),
     t.Say(ProvenanceConfidence, Number(c.confidence)),
     t.Say(ProvenanceObservedAt, Instant(ObservedAt(s)))]
    + IfSome(s.sourceRef != "", t.Say(ProvenanceSourceRef, Text(s.sourceRef)))
  }

  function PointTriple(t: Stamp, predicate_: Predicate, p: Option<C.Point>): seq<Triple> {
    if p.Some? then [t.Say(predicate_, WktPoint(p.value))] else []
  }

  function TrackTriples(c: Config, s: SourceEvent): seq<Triple> {
    var e, id := s.event, TrackId(c, s.event.uid);
    var t := StampOf(c, s, id);
    if e.point.None? && !e.hasTrack then []
    else
      ProvenanceTriples(c, s, id)
      + [t.Say(TrackNativeId, Text(NativeId(e.uid))),
         t.Say(TrackObservedAt, Instant(ObservedAt(s))),
         t.Say(TrackStatus, Text(StatusFor(s, TrackKind(e))))]
      + PointTriple(t, TrackPosition, e.point)
      + IfSome(e.hasTrack, t.Say(TrackVelocity, CourseSpeed(e)))
  }

  function SourceAssetTriples(c: Config, s: SourceEvent): seq<Triple> {
    var e, id := s.event, SourceAssetId(c, s.event.uid);
    var t := StampOf(c, s, id);
    ProvenanceTriples(c, s, id)
    + [t.Say(AssetName, Text(FirstNonEmpty([e.callsign, e.uid]))),
       t.Say(AssetKind, Text("tak-cot-source")),
       t.Say(AssetSource, Text("tak-cot")),
       t.Say(AssetNativeId, Text(NativeId(e.uid)))]
  }

  function TaskTriples(c: Config, s: SourceEvent): seq<Triple> {
    var e, id := s.event, TaskId(c, s.event.uid);
    var t := StampOf(c, s, id);
    if e.point.None? && TrimSpace(e.callsign) == "" && TrimSpace(e.remarks) == "" then []
    else
      ProvenanceTriples(c, s, id)
      + [t.Say(TaskNativeId, Text(NativeId(e.uid))),
         t.Say(TaskName, Text(FirstNonEmpty([e.callsign, e.uid]))),
         t.Say(TaskKind, Text("marker")),
         t.Say(TaskStatus, Text(StatusFor(s, "marker")))]
      + PointTriple(t, TaskPosition, e.point)
      + IfSome(TrimSpace(e.remarks) != "", t.Say(TaskDescription, Text(TrimSpace(e.remarks))))
  }

  function AdvisoryTriples(c: Config, s: SourceEvent): seq<Triple> {
    var e, id := s.event, AdvisoryId(c, s.event.uid);
    var t := StampOf(c, s, id);
    var text := AdvisoryWords(e);
    var sender := FirstNonEmpty([e.senderUid, e.callsign]);
    if text == "" then []
    else
      ProvenanceTriples(c, s, id)
      + [t.Say(AdvisoryNativeId, Text(NativeId(e.uid))),
         t.Say(AdvisoryText, Text(text)),
         t.Say(AdvisoryKind, Text("geochat")),
         t.Say(AdvisoryStatus, Text(StatusFor(s, "geochat")))]
      + IfSome(sender != "", t.Say(AdvisorySender, Text(sender)))
      + PointTriple(t, AdvisoryPosition, e.point)
  }

  function SourceEdge(c: Config, s: SourceEvent): Triple {
    StampOf(c, s, TrackId(c, s.event.uid)).Say(TrackSource, Link(SourceAssetId(c, s.event.uid)))
  }

  // ---------- Intents ----------

  function TrackIntents(c: Config, s: SourceEvent): seq<Intent> {
    var uid := s.event.uid;
    if TrackTriples(c, s) == [] then []
    else
      [AssetBirth(SourceAssetId(c, uid), SourceAssetTriples(c, s)),
       SourcedTrack(TrackId(c, uid), TakTrackContract(), TrackTriples(c, s), SourceEdge(c, s))]
  }

  function TaskIntents(c: Config, s: SourceEvent): seq<Intent> {
    if TaskTriples(c, s) == [] then [] else [Lone(Task, TaskId(c, s.event.uid), TakTaskContract(), TaskTriples(c, s))]
  }

  function AdvisoryIntents(c: Config, s: SourceEvent): seq<Intent> {
    if AdvisoryTriples(c, s) == [] then []
    else [Lone(Advisory, AdvisoryId(c, s.event.uid), TakAdvisoryContract(), AdvisoryTriples(c, s))]
  }

  function IntentsOf(c: Config, s: SourceEvent): seq<Intent> {
    var kind := s.event.kind;
    if C.IsGeoChatType(kind) then AdvisoryIntents(c, s)
    else if C.IsMarkerType(kind) then TaskIntents(c, s)
    else if C.IsOperatorType(kind) || C.IsAirTrackType(kind) then TrackIntents(c, s)
    else []
  }

  function PartsOf(c: Config, events: seq<SourceEvent>): seq<seq<Intent>> {
    seq(|events|, i requires 0 <= i < |events| => IntentsOf(c, events[i]))
  }

  predicate AllValid(events: seq<SourceEvent>) {
    forall i :: 0 <= i < |events| ==> events[i].event.Valid()
  }

  /** The entities whose births an event can teach. */
  function Markable(c: Config, e: C.Event): seq<Ref> {
    [Ref(Asset, SourceAssetId(c, e.uid)), Ref(Track, TrackId(c, e.uid)),
     Ref(Task, TaskId(c, e.uid)), Ref(Advisory, AdvisoryId(c, e.uid))]
  }

  function JobOf(c: Config, s: SourceEvent): Job {
    Job(IntentsOf(c, s), Markable(c, s.event))
  }

  function Kinds(): map<string, Kind> {
    map[SourceAssetContract().messageType := Asset, TakTrackContract().messageType := Track,
        TakTaskContract().messageType := Task, TakAdvisoryContract().messageType := Advisory]
  }

  /** Local copies of the four born sets. */
  datatype BornSets = BornSets(assets: set<string>, tracks: set<string>, tasks: set<string>, advisories: set<string>) {
    function Born(): Born {
      Tagged(Asset, assets) + Tagged(Track, tracks) + Tagged(Task, tasks) + Tagged(Advisory, advisories)
    }
  }

  class Projector {
    const config: Config
    var bornAssets: set<string>
    var bornTracks: set<string>
    var bornTasks: set<string>
    var bornAdvisories: set<string>

    function Sets(): BornSets
      reads this
    {
      BornSets(bornAssets, bornTracks, bornTasks, bornAdvisories)
    }

    ghost function Born(): Born
      reads this
    {
      Sets().Born()
    }

    constructor (config: Config)
      ensures this.config == WithDefaults(config, 1.0) && Born() == {}
    {
      var completed := config;
      if completed.org == "" {
        completed := completed.(org := "c360");
      }
      if completed.platform == "" {
        completed := completed.(platform := "edge");
      }
      if completed.confidence == 0.0 {
        completed := completed.(confidence := DEFAULT_CONFIDENCE);
      }
      this.config := completed;
      bornAssets, bornTracks, bornTasks, bornAdvisories := {}, {}, {}, {};
    }

    /** The plan for one event, or none if the event is invalid. */
    method ProjectEvent(event: C.Event, sourceRef: string, clock: nat) returns (plan: Option<Plan>)
      ensures var s := SourceEvent(event, sourceRef, clock);
        plan == if event.Valid() then Some(PlanOf(IntentsOf(config, s), Born())) else None
    {
      hide IntentsOf, BornSets.Born;
      var sets;
      plan, sets := ProjectWith(SourceEvent(event, sourceRef, clock), Sets());
    }

    method ProjectEvents(events: seq<SourceEvent>) returns (plan: Option<Plan>)
      ensures plan == if AllValid(events) then Some(PlanOf(Concat(PartsOf(config, events)), Born())) else None
    {
      hide IntentsOf, BornSets.Born, PlanOf, RefsOf, Concat, C.Event.Valid;
      ghost var parts := PartsOf(config, events);
      var sets := Sets();
      var mutations := [];
      ConcatStarts(parts, Born());
      for i := 0 to |events|
        invariant forall k :: 0 <= k < i ==> events[k].event.Valid()
        invariant mutations == PlanOf(Concat(parts[..i]), Born())
        invariant sets.Born() == Born() + RefsOf(Concat(parts[..i]))
      {
        ConcatGrows(parts, i, Born());
        var next;
        next, sets := ProjectWith(events[i], sets);
        if next.None? {
          return None;
        }
        mutations := mutations + next.value;
      }
      assert parts[..|events|] == parts;
      plan := Some(mutations);
    }

    /** projectEvent: the plan for one event, and the local born sets after it. */
    method ProjectWith(s: SourceEvent, before: BornSets) returns (plan: Option<Plan>, after: BornSets)
      ensures plan == if s.event.Valid() then Some(PlanOf(IntentsOf(config, s), before.Born())) else None
      ensures after.Born() == if plan.Some? then before.Born() + RefsOf(IntentsOf(config, s)) else before.Born()
    {
      hide TrackIntents, TaskIntents, AdvisoryIntents, BornSets.Born;
      after := before;
      NoIntents(before.Born());
      var ok := C.Validate(s.event);
      if !ok {
        return None, after;
      }
      var kind := s.event.kind;
      var mutations := [];
      if C.IsGeoChatType(kind) {
        mutations, after := ProjectAdvisory(s, before);
      } else if C.IsMarkerType(kind) {
        mutations, after := ProjectTask(s, before);
      } else if C.IsOperatorType(kind) || C.IsAirTrackType(kind) {
        mutations, after := ProjectTrack(s, before);
      }
      plan := Some(mutations);
    }

    method ProjectTrack(s: SourceEvent, before: BornSets) returns (plan: Plan, after: BornSets)
      ensures plan == PlanOf(TrackIntents(config, s), before.Born())
      ensures after.Born() == before.Born() + RefsOf(TrackIntents(config, s))
    {
      hide TrackTriples, SourceAssetTriples, EntityId, PlanOf, RefsOf, Tagged, BornSets.Born;
      plan, after := [], before;
      NoIntents(before.Born());
      var trackTriples := TrackTriples(config, s);
      if trackTriples == [] {
        return;
      }
      var assetId, trackId := SourceAssetId(config, s.event.uid), TrackId(config, s.event.uid);
      PlanOfTwo(TrackIntents(config, s)[0], TrackIntents(config, s)[1], before.Born());
      AssetBorn(before, assetId);
      if assetId !in after.assets {
        plan := plan + [Create(assetId, SourceAssetContract().messageType, SourceAssetTriples(config, s),
                               SourceAssetContract().indexingProfile, OWNER_ASSET)];
        after := after.(assets := after.assets + {assetId});
      }
      TrackBorn(after, trackId);
      if trackId !in after.tracks {
        plan := plan + [Create(trackId, TakTrackContract().messageType, trackTriples + [SourceEdge(config, s)],
                               TakTrackContract().indexingProfile, OWNER_TAK)];
        after := after.(tracks := after.tracks + {trackId});
        return;
      }
      plan := plan + [Update(trackId, trackTriples, TakTrackContract().indexingProfile, OWNER_TAK)];
    }

    method ProjectTask(s: SourceEvent, before: BornSets) returns (plan: Plan, after: BornSets)
      ensures plan == PlanOf(TaskIntents(config, s), before.Born())
      ensures after.Born() == before.Born() + RefsOf(TaskIntents(config, s))
    {
      hide TaskTriples, EntityId, PlanOf, RefsOf, BornSets.Born;
      NoIntents(before.Born());
      var taskTriples := TaskTriples(config, s);
      if taskTriples == [] {
        return [], before;
      }
      var taskId := TaskId(config, s.event.uid);
      PlanOfOne(TaskIntents(config, s)[0], before.Born());
      TaskBorn(before, taskId);
      if taskId !in before.tasks {
        return [Create(taskId, TakTaskContract().messageType, taskTriples, TakTaskContract().indexingProfile, OWNER_TAK)],
               before.(tasks := before.tasks + {taskId});
      }
      return [Update(taskId, taskTriples, TakTaskContract().indexingProfile, OWNER_TAK)], before;
    }

    method ProjectAdvisory(s: SourceEvent, before: BornSets) returns (plan: Plan, after: BornSets)
      ensures plan == PlanOf(AdvisoryIntents(config, s), before.Born())
      ensures after.Born() == before.Born() + RefsOf(AdvisoryIntents(config, s))
    {
      hide AdvisoryTriples, EntityId, PlanOf, RefsOf, BornSets.Born;
      NoIntents(before.Born());
      var advisoryTriples := AdvisoryTriples(config, s);
      if advisoryTriples == [] {
        return [], before;
      }
      var id := AdvisoryId(config, s.event.uid);
      PlanOfOne(AdvisoryIntents(config, s)[0], before.Born());
      AdvisoryBorn(before, id);
      if id !in before.advisories {
        return [Create(id, TakAdvisoryContract().messageType, advisoryTriples, TakAdvisoryContract().indexingProfile, OWNER_TAK)],
               before.(advisories := before.advisories + {id});
      }
      return [Update(id, advisoryTriples, TakAdvisoryContract().indexingProfile, OWNER_TAK)], before;
    }

    method MarkBornForPlan(plan: Plan) returns (marked: nat)
      modifies this
      ensures Born() == old(Born()) + Births(plan, Kinds())
      ensures marked == |Born()| - |old(Born())|
    {
      hide Kinds, BirthOf, BornSets.Born, Births, Plus;
      NoBirthsYet(plan, Kinds(), Asset, Born());
      marked := 0;
      for i := 0 to |plan|
        invariant Born() == old(Born()) + Births(plan[..i], Kinds())
        invariant marked == |Born()| - |old(Born())|
      {
        BirthsGrow(plan, Kinds(), i);
        PlusMoves(old(Born()), Births(plan[..i], Kinds()), BirthOf(plan[i], Kinds()));
        if plan[i].Create? {
          var isNew := MarkBornEntity(plan[i]);
          if isNew {
            marked := marked + 1;
          }
        } else {
          NoBirth(plan[i], Kinds(), Born());
        }
      }
      assert plan[..|plan|] == plan;
    }

    method MarkBornEntity(m: Mutation) returns (marked: bool)
      requires m.Create?
      modifies this
      ensures Born() == Plus(old(Born()), BirthOf(m, Kinds()))
      ensures |Born()| == |old(Born())| + if marked then 1 else 0
    {
      hide BornSets.Born, Kinds;
      KindsAreKeyed(m.messageType);
      if m.id == "" {
        return false;
      }
      if m.messageType == SourceAssetContract().messageType {
        AssetBorn(Sets(), m.id);
        marked := m.id !in bornAssets;
        bornAssets := bornAssets + {m.id};
      } else if m.messageType == TakTrackContract().messageType {
        TrackBorn(Sets(), m.id);
        marked := m.id !in bornTracks;
        bornTracks := bornTracks + {m.id};
      } else if m.messageType == TakTaskContract().messageType {
        TaskBorn(Sets(), m.id);
        marked := m.id !in bornTasks;
        bornTasks := bornTasks + {m.id};
      } else if m.messageType == TakAdvisoryContract().messageType {
        AdvisoryBorn(Sets(), m.id);
        marked := m.id !in bornAdvisories;
        bornAdvisories := bornAdvisories + {m.id};
      } else {
        marked := false;
      }
    }

    method MarkBornForEvent(event: C.Event, entityId: string) returns (known: bool)
      modifies this
      ensures var ref := Marked(Markable(config, event), entityId);
        known == ref.Some? && Born() == Plus(old(Born()), ref)
    {
      hide EntityId, BornSets.Born, Markable;
      MarkedOfFour(config, event, entityId);
      if entityId == "" {
        IdsAreNamed(config, event.uid);
        return false;
      }
      known := true;
      if entityId == SourceAssetId(config, event.uid) {
        AssetBorn(Sets(), entityId);
        bornAssets := bornAssets + {entityId};
      } else if entityId == TrackId(config, event.uid) {
        TrackBorn(Sets(), entityId);
        bornTracks := bornTracks + {entityId};
      } else if entityId == TaskId(config, event.uid) {
        TaskBorn(Sets(), entityId);
        bornTasks := bornTasks + {entityId};
      } else if entityId == AdvisoryId(config, event.uid) {
        AdvisoryBorn(Sets(), entityId);
        bornAdvisories := bornAdvisories + {entityId};
      } else {
        known := false;
      }
    }
  }

  // ---------- Facts behind the methods ----------

  lemma AssetBorn(b: BornSets, id: string)
    ensures Ref(Asset, id) in b.Born() <==> id in b.assets
    ensures b.(assets := b.assets + {id}).Born() == b.Born() + {Ref(Asset, id)}
  {
    TaggedAdds(Asset, b.assets, id);
  }

  lemma TrackBorn(b: BornSets, id: string)
    ensures Ref(Track, id) in b.Born() <==> id in b.tracks
    ensures b.(tracks := b.tracks + {id}).Born() == b.Born() + {Ref(Track, id)}
  {
    TaggedAdds(Track, b.tracks, id);
  }

  lemma TaskBorn(b: BornSets, id: string)
    ensures Ref(Task, id) in b.Born() <==> id in b.tasks
    ensures b.(tasks := b.tasks + {id}).Born() == b.Born() + {Ref(Task, id)}
  {
    TaggedAdds(Task, b.tasks, id);
  }

  lemma AdvisoryBorn(b: BornSets, id: string)
    ensures Ref(Advisory, id) in b.Born() <==> id in b.advisories
    ensures b.(advisories := b.advisories + {id}).Born() == b.Born() + {Ref(Advisory, id)}
  {
    TaggedAdds(Advisory, b.advisories, id);
  }

  lemma MessageTypesDiffer()
    ensures var (a, t, k, v) := (SourceAssetContract().messageType, TakTrackContract().messageType,
                                 TakTaskContract().messageType, TakAdvisoryContract().messageType);
      a != t && a != k && a != v && t != k && t != v && k != v
  {
    assert SourceAssetContract().messageType[7] == 's' && TakTrackContract().messageType[7] == 't';
    assert TakTaskContract().messageType[7] == 't' && TakAdvisoryContract().messageType[7] == 't';
    assert TakTrackContract().messageType[12] == 'r' && TakTaskContract().messageType[12] == 'a';
    assert TakTaskContract().messageType[11] == 't' && TakAdvisoryContract().messageType[11] == 'a';
    assert TakTrackContract().messageType[11] == 't';
  }

  lemma KindsAreKeyed(messageType: string)
    ensures messageType in Kinds() <==>
      messageType in [SourceAssetContract().messageType, TakTrackContract().messageType,
                      TakTaskContract().messageType, TakAdvisoryContract().messageType]
    ensures messageType in Kinds() ==> Kinds()[messageType] == KindOf(messageType)
    ensures KindOf(SourceAssetContract().messageType) == Asset && KindOf(TakTrackContract().messageType) == Track
    ensures KindOf(TakTaskContract().messageType) == Task && KindOf(TakAdvisoryContract().messageType) == Advisory
  {
    MessageTypesDiffer();
  }

  lemma IdsAreNamed(c: Config, uid: string)
    ensures KindOfId(SourceAssetId(c, uid)) == Asset && KindOfId(TrackId(c, uid)) == Track
    ensures KindOfId(TaskId(c, uid)) == Task && KindOfId(AdvisoryId(c, uid)) == Advisory
    ensures SourceAssetId(c, uid) != "" && TrackId(c, uid) != "" && TaskId(c, uid) != "" && AdvisoryId(c, uid) != ""
  {
    hide Key, TypeOfId, EntityToken;
    var org, platform := if c.org == "" then "c360" else c.org, if c.platform == "" then "edge" else c.platform;
    EntityTokenIsToken(uid);
    TypeOfKey(org, platform, "tak", ENTITY_ASSET, EntityToken(uid));
    TypeOfKey(org, platform, "tak", ENTITY_TRACK, EntityToken(uid));
    TypeOfKey(org, platform, "tak", ENTITY_TASK, EntityToken(uid));
    TypeOfKey(org, platform, "tak", ENTITY_ADVISORY, EntityToken(uid));
  }

  lemma MarkedOfFour(c: Config, e: C.Event, id: string)
    ensures Marked(Markable(c, e), id) ==
      if id == SourceAssetId(c, e.uid) then Some(Ref(Asset, id))
      else if id == TrackId(c, e.uid) then Some(Ref(Track, id))
      else if id == TaskId(c, e.uid) then Some(Ref(Task, id))
      else if id == AdvisoryId(c, e.uid) then Some(Ref(Advisory, id))
      else None
  {
    hide EntityId;
    var m := Markable(c, e);
    assert m == [m[0]] + ([m[1]] + ([m[2]] + [m[3]]));
    MarkedFirst(m[0], [m[1]] + ([m[2]] + [m[3]]), id);
    MarkedFirst(m[1], [m[2]] + [m[3]], id);
    MarkedFirst(m[2], [m[3]], id);
    MarkedOfOne(m[3], id);
  }

  // ---------- Shared entities ----------

  /** Two uids share their entities exactly when they have the same token. */
  lemma UidsShareExactly(c: Config, entityType: string, a: string, b: string)
    ensures EntityId(c, entityType, a) == EntityId(c, entityType, b) <==> EntityToken(a) == EntityToken(b)
  {
    hide Key, EntityToken;
    SameKeySameInstance(if c.org == "" then "c360" else c.org, if c.platform == "" then "edge" else c.platform,
                        "tak", entityType, EntityToken(a), EntityToken(b));
  }

  /** So do, for one, all uids in a script without ASCII letters and digits: these two are one track. */
  lemma DifferentUidsShareATrack(c: Config)
    ensures var (a, b) := ("\U{03B1}", "\U{03B2}"); a != b && TrackId(c, a) == TrackId(c, b)
  {
    hide EntityToken, EntityId;
    NamelessIsUnknown("\U{03B1}");
    NamelessIsUnknown("\U{03B2}");
    UidsShareExactly(c, ENTITY_TRACK, "\U{03B1}", "\U{03B2}");
    assert "\U{03B1}"[0] != "\U{03B2}"[0];
  }

  // ---------- The jobs are sound ----------

  lemma ProvenanceStaysOwned(c: Config, s: SourceEvent, subject: string, k: Contract)
    requires {ProvenanceSource, ProvenanceConfidence, ProvenanceObservedAt, ProvenanceSourceRef} <= k.predicates
    ensures Within(ProvenanceTriples(c, s, subject), subject, k.predicates)
  {}

  lemma TrackTriplesStayOwned(c: Config, s: SourceEvent)
    ensures Within(TrackTriples(c, s), TrackId(c, s.event.uid), TakTrackContract().predicates)
  {
    hide EntityId, ProvenanceTriples, NativeId, StatusFor, WktPoint;
    ProvenanceStaysOwned(c, s, TrackId(c, s.event.uid), TakTrackContract());
  }

  lemma AssetTriplesStayOwned(c: Config, s: SourceEvent)
    ensures Within(SourceAssetTriples(c, s), SourceAssetId(c, s.event.uid), SourceAssetContract().predicates)
  {
    hide EntityId, ProvenanceTriples, NativeId, FirstNonEmpty;
    ProvenanceStaysOwned(c, s, SourceAssetId(c, s.event.uid), SourceAssetContract());
  }

  lemma TaskTriplesStayOwned(c: Config, s: SourceEvent)
    ensures Within(TaskTriples(c, s), TaskId(c, s.event.uid), TakTaskContract().predicates)
  {
    hide EntityId, ProvenanceTriples, NativeId, StatusFor, WktPoint, FirstNonEmpty, TrimSpace;
    ProvenanceStaysOwned(c, s, TaskId(c, s.event.uid), TakTaskContract());
  }

  lemma AdvisoryTriplesStayOwned(c: Config, s: SourceEvent)
    ensures Within(AdvisoryTriples(c, s), AdvisoryId(c, s.event.uid), TakAdvisoryContract().predicates)
  {
    hide EntityId, ProvenanceTriples, NativeId, StatusFor, WktPoint, FirstNonEmpty;
    ProvenanceStaysOwned(c, s, AdvisoryId(c, s.event.uid), TakAdvisoryContract());
  }

  lemma IntentsAnnounce(c: Config, s: SourceEvent)
    ensures Announces(TrackIntents(c, s), Kinds()) && Announces(TaskIntents(c, s), Kinds())
    ensures Announces(AdvisoryIntents(c, s), Kinds())
  {
    hide EntityId, TrackTriples, SourceAssetTriples, TaskTriples, AdvisoryTriples, KindOf, KindOfId, Kinds;
    IdsAreNamed(c, s.event.uid);
    KindsAreKeyed(SourceAssetContract().messageType);
    KindsAreKeyed(TakTrackContract().messageType);
    KindsAreKeyed(TakTaskContract().messageType);
    KindsAreKeyed(TakAdvisoryContract().messageType);
  }

  lemma TrackJobIsSound(c: Config, s: SourceEvent)
    ensures SoundJob(Job(TrackIntents(c, s), Markable(c, s.event)), 2)
  {
    hide EntityId, KindOf, KindOfId, TrackTriples, SourceAssetTriples, SoundJob, Markable;
    if TrackIntents(c, s) == [] {
      NoJob(Markable(c, s.event), 2);
    } else {
      TrackTriplesStayOwned(c, s);
      AssetTriplesStayOwned(c, s);
      IdsAreNamed(c, s.event.uid);
      KindsAreKeyed("");
      MarkedOfFour(c, s.event, SourceAssetId(c, s.event.uid));
      MarkedOfFour(c, s.event, TrackId(c, s.event.uid));
      SourcedJob(SourceAssetId(c, s.event.uid), SourceAssetTriples(c, s), TrackId(c, s.event.uid), TakTrackContract(),
                 TrackTriples(c, s), SourceEdge(c, s), Markable(c, s.event));
    }
  }

  lemma TaskJobIsSound(c: Config, s: SourceEvent)
    ensures SoundJob(Job(TaskIntents(c, s), Markable(c, s.event)), 1)
  {
    hide EntityId, KindOf, KindOfId, TaskTriples, SoundJob, Markable;
    if TaskIntents(c, s) == [] {
      NoJob(Markable(c, s.event), 1);
    } else {
      TaskTriplesStayOwned(c, s);
      IdsAreNamed(c, s.event.uid);
      KindsAreKeyed("");
      MarkedOfFour(c, s.event, TaskId(c, s.event.uid));
      LoneJob(Task, TaskId(c, s.event.uid), TakTaskContract(), TaskTriples(c, s), Markable(c, s.event));
    }
  }

  lemma AdvisoryJobIsSound(c: Config, s: SourceEvent)
    ensures SoundJob(Job(AdvisoryIntents(c, s), Markable(c, s.event)), 1)
  {
    hide EntityId, KindOf, KindOfId, AdvisoryTriples, SoundJob, Markable;
    if AdvisoryIntents(c, s) == [] {
      NoJob(Markable(c, s.event), 1);
    } else {
      AdvisoryTriplesStayOwned(c, s);
      IdsAreNamed(c, s.event.uid);
      KindsAreKeyed("");
      MarkedOfFour(c, s.event, AdvisoryId(c, s.event.uid));
      LoneJob(Advisory, AdvisoryId(c, s.event.uid), TakAdvisoryContract(), AdvisoryTriples(c, s), Markable(c, s.event));
    }
  }

  /** Whatever an event holds, its job is sound and concerns at most two entities. */
  lemma JobIsSound(c: Config, s: SourceEvent)
    ensures SoundJob(JobOf(c, s), 2) && Announces(IntentsOf(c, s), Kinds())
  {
    hide TrackIntents, TaskIntents, AdvisoryIntents, Kinds, Job.Valid, CreateIncludesUpdate, RefsOf, Markable, Announces;
    IntentsAnnounce(c, s);
    TrackJobIsSound(c, s);
    TaskJobIsSound(c, s);
    AdvisoryJobIsSound(c, s);
    NoJob(Markable(c, s.event), 2);
    NothingAnnounced(Kinds());
  }

  lemma NothingAnnounced(kinds: map<string, Kind>)
    ensures Announces([], kinds)
  {}

  /** ProjectEvents gives the plans of single events with MarkBornForPlan after each, and creates nothing twice. */
  lemma BatchIsSequential(c: Config, events: seq<SourceEvent>, born: Born)
    ensures FaithfulBatch(PartsOf(c, events), born)
  {
    hide IntentsOf, Markable, FaithfulBatch, Kinds, CreateIncludesUpdate, RefsOf, EdgesBornFirst;
    forall i | 0 <= i < |events|
      ensures AllWellFormed(IntentsOf(c, events[i]))
    {
      JobIsSound(c, events[i]);
    }
    BatchIsFaithful(PartsOf(c, events), born);
  }
}
