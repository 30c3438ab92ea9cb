/**
 The common operating picture vocabulary (pkg/cop/contracts.go): predicates, owners,
 entity keys and the projection contracts that say which owner may write what.
 */
module Cop {
  import opened Checksum

  const ENTITY_TRACK := "track"
  const ENTITY_ASSET := "asset"
  const ENTITY_HAZARD_AREA := "hazard_area"
  const ENTITY_ALERT := "alert"
  const ENTITY_TASK := "task"
  const ENTITY_ADVISORY := "advisory"

  const OWNER_MAVLINK := "semops.feed.mavlink"
  const OWNER_TAK := "semops.feed.tak"
  const OWNER_ADSB := "semops.feed.adsb"
  const OWNER_ASSET := "semops.feed.asset"
  const OWNER_CAP := "semops.feed.cap"
  const OWNER_FUSION := "semops.fusion.structural"

  /** The predicates of the model; each stands for one dotted predicate name. */
  datatype Predicate =
    | TrackPosition | TrackVelocity | TrackStatus | TrackObservedAt | TrackNativeId | TrackSource
    | TrackRoll | TrackPitch | TrackYaw | TrackBattery
    | AssetName | AssetKind | AssetSource | AssetNativeId
    | HazardAdvisoryText | HazardEvidence | HazardSource
    | AlertSeverity | AlertStatus | AlertReason | AlertAffectedEntity | AlertSource
    | TaskName | TaskKind | TaskStatus | TaskPosition | TaskDescription | TaskNativeId
    | AdvisoryText | AdvisoryKind | AdvisoryStatus | AdvisorySender | AdvisoryPosition | AdvisoryNativeId
    | ProvenanceSource | ProvenanceConfidence | ProvenanceObservedAt | ProvenanceSourceRef

  datatype GeoPoint = GeoPoint(lat: real, lon: real)

  datatype GeoCircle = GeoCircle(center: GeoPoint, radiusKm: real)

  /** The evidence that one civil alert leaves at a hazard; a zero time is an empty one. */
  datatype HazardDocument = HazardDocument(
    identifier: string, messageType: string, status: string,
    event: string, urgency: string, severity: string, certainty: string,
    sender: string, senderName: string,
    sent: nat, effective: nat, expires: nat,
    areaDesc: string, polygons: seq<seq<GeoPoint>>, circles: seq<GeoCircle>)

  /** Triple objects; a document stands for its JSON text, and a rendered value stands for a formatted string over numbers. */
  datatype Value =
    | Text(text: string)
    | Number(number: real)
    | Whole(whole: int)
    | Instant(time: int)
    | Link(target: string)
    | Rendered(shape: string, parts: seq<Option<real>>)
    | Document(evidence: HazardDocument)

  datatype Triple = Triple(
    subject: string, predicate_: Predicate, object_: Value, source: string, timestamp: int, confidence: real)

  // ---------- Entity keys ----------

  function Join(parts: seq<string>): string {
    if parts == [] then "" else if |parts| == 1 then parts[0] else parts[0] + "." + Join(parts[1..])
  }

  /** The six segments of an entity id. */
  function Segments(org: string, platform: string, system: string, entityType: string, instance: string): seq<string> {
    [org, platform, "cop", system, entityType, instance]
  }

  function Key(org: string, platform: string, system: string, entityType: string, instance: string): string {
    Join(Segments(org, platform, system, entityType, instance))
  }

  function Split(s: string): (parts: seq<string>)
    ensures parts != []
  {
    if s == "" then [""] else Prefixed(s[0], Split(s[1..]))
  }

  /** Parts with one more character in front. */
  function Prefixed(c: char, parts: seq<string>): (longer: seq<string>)
    requires parts != []
    ensures longer != []
  {
    if c == '.' then [""] + parts else [[c] + parts[0]] + parts[1..]
  }

  lemma PrefixedAppend(c: char, a: seq<string>, b: seq<string>)
    requires a != []
    ensures Prefixed(c, a + b) == Prefixed(c, a) + b
  {}

  predicate IsSegment(s: string) {
    '.' !in s
  }

  /** Splitting at dots undoes joining with dots. */
  lemma {:induction false} SplitConcat(s: string, t: string)
    ensures Split(s + "." + t) == Split(s) + Split(t)
  {
    hide Prefixed;
    var whole := s + "." + t;
    if s == "" {
      assert whole[1..] == t;
      DotStarts(Split(t));
    } else {
      assert whole[1..] == s[1..] + "." + t;
      SplitConcat(s[1..], t);
      PrefixedAppend(s[0], Split(s[1..]), Split(t));
    }
  }

  lemma DotStarts(parts: seq<string>)
    requires parts != []
    ensures Prefixed('.', parts) == [""] + parts
  {}

  lemma {:induction false} SplitSegment(s: string)
    ensures |Split(s)| == 1 <==> IsSegment(s)
    ensures IsSegment(s) ==> Split(s) == [s]
  {
    if s != "" {
      SplitSegment(s[1..]);
      assert s == [s[0]] + s[1..];
    }
  }

  /** The segments of a key, the org and platform counting as many as they have. */
  lemma SplitKey(org: string, platform: string, system: string, entityType: string, instance: string)
    requires IsSegment(system) && IsSegment(entityType) && IsSegment(instance)
    ensures Split(Key(org, platform, system, entityType, instance))
         == Split(org) + Split(platform) + ["cop", system, entityType, instance]
  {
    hide Split, IsSegment;
    var s := Segments(org, platform, system, entityType, instance);
    assert s[1..] == [platform, "cop", system, entityType, instance];
    assert s[1..][1..] == ["cop", system, entityType, instance];
    assert s[1..][1..][1..] == [system, entityType, instance];
    assert s[1..][1..][1..][1..] == [entityType, instance];
    assert s[1..][1..][1..][1..][1..] == [instance];
    CopIsSegment();
    SplitSegment("cop");
    SplitSegment(system);
    SplitSegment(entityType);
    SplitSegment(instance);
    SplitConcat(entityType, Join([instance]));
    SplitConcat(system, Join([entityType, instance]));
    SplitConcat("cop", Join([system, entityType, instance]));
    SplitConcat(platform, Join(["cop", system, entityType, instance]));
    SplitConcat(org, Join(s[1..]));
  }

  lemma CopIsSegment()
    ensures IsSegment("cop")
  {}

  /** A dotted glob whose star stands for one segment. */
  predicate Matches(pattern: seq<string>, id: string) {
    var parts := Split(id);
    |parts| == |pattern| && forall i :: 0 <= i < |pattern| ==> pattern[i] == "*" || pattern[i] == parts[i]
  }

  function EntityPattern(entityType: string): seq<string> {
    ["c360", "*", "cop", "*", entityType, "*"]
  }

  function SourceEntityPattern(system: string, entityType: string): seq<string> {
    ["c360", "*", "cop", system, entityType, "*"]
  }

  /** The part of an id before its last dot, and the part after it. */
  function Cut(s: string): (string, string) {
    if s == "" then ("", "")
    else if IsSegment(s[1..]) then
      if s[0] == '.' then ("", s[1..]) else ("", s)
    else
      var (before, last) := Cut(s[1..]);
      ([s[0]] + before, last)
  }

  lemma {:induction false} CutAtLastDot(before: string, last: string)
    requires IsSegment(last)
    ensures Cut(before + "." + last) == (before, last)
  {
    var s := before + "." + last;
    if before == "" {
      assert s[1..] == last;
    } else {
      assert s[1..] == before[1..] + "." + last;
      assert s[1..][|before| - 1] == '.';
      CutAtLastDot(before[1..], last);
      assert [before[0]] + before[1..] == before;
    }
  }

  /** The entity type segment of an id: the last but one. */
  function TypeOfId(id: string): string {
    Cut(Cut(id).0).1
  }

  lemma TypeOfKey(org: string, platform: string, system: string, entityType: string, instance: string)
    requires IsSegment(entityType) && IsSegment(instance)
    ensures TypeOfId(Key(org, platform, system, entityType, instance)) == entityType
    ensures Key(org, platform, system, entityType, instance) != ""
  {
    var head := org + "." + platform + ".cop." + system;
    KeyShape(org, platform, system, entityType, instance);
    assert Key(org, platform, system, entityType, instance) == (head + "." + entityType) + "." + instance;
    CutAtLastDot(head + "." + entityType, instance);
    CutAtLastDot(head, entityType);
  }

  lemma KeyShape(org: string, platform: string, system: string, entityType: string, instance: string)
    ensures Key(org, platform, system, entityType, instance)
         == (org + "." + platform + ".cop." + system + ".") + (entityType + "." + instance)
  {
    var s := Segments(org, platform, system, entityType, instance);
    assert s[1..] == [platform, "cop", system, entityType, instance];
    assert s[1..][1..] == ["cop", system, entityType, instance];
    assert s[1..][1..][1..] == [system, entityType, instance];
    assert s[1..][1..][1..][1..] == [entityType, instance];
    assert s[1..][1..][1..][1..][1..] == [instance];
    var type' := entityType + "." + instance;
    assert Join([entityType, instance]) == type';
    assert Join([system, entityType, instance]) == system + "." + type';
    var cop := "cop" + "." + (system + "." + type');
    assert Join(["cop", system, entityType, instance]) == cop;
    assert Join([platform, "cop", system, entityType, instance]) == platform + "." + cop;
    assert Join(s) == org + "." + (platform + "." + cop);
    assert ".cop." == "." + "cop" + ".";
    assert org + "." + (platform + "." + cop) == (org + "." + platform + ".cop." + system + ".") + type';
  }

  /** Keys that differ only in their instance are equal exactly when the instances are. */
  lemma SameKeySameInstance(org: string, platform: string, system: string, entityType: string, s: string, t: string)
    ensures Key(org, platform, system, entityType, s) == Key(org, platform, system, entityType, t) <==> s == t
  {
    hide Join;
    KeyShape(org, platform, system, entityType, s);
    KeyShape(org, platform, system, entityType, t);
    var head := org + "." + platform + ".cop." + system + ".";
    SameTail(head, entityType + ".", s, t);
    assert entityType + "." + s == (entityType + ".") + s && entityType + "." + t == (entityType + ".") + t;
  }

  lemma SameTail(head: string, middle: string, s: string, t: string)
    ensures head + (middle + s) == head + (middle + t) <==> s == t
  {
    if head + (middle + s) == head + (middle + t) {
      assert (head + (middle + s))[|head|..][|middle|..] == s;
      assert (head + (middle + t))[|head|..][|middle|..] == t;
    }
  }

  // ---------- Contracts ----------

  datatype Mode = ReplaceOwned | AppendEvidence

  datatype Contract = Contract(
    messageType: string,
    owner: string,
    pattern: seq<string>,
    indexingProfile: string,
    mode: Mode,
    predicates: set<Predicate>,
    foreignEdges: map<Predicate, seq<string>>)

  function SourceAssetContract(): Contract {
    Contract("semops.source.asset.v1", OWNER_ASSET, EntityPattern(ENTITY_ASSET), "control", ReplaceOwned,
      {AssetName, AssetKind, AssetSource, AssetNativeId,
       ProvenanceSource, ProvenanceConfidence, ProvenanceObservedAt, ProvenanceSourceRef},
      map[])
  }

  function MavlinkTrackContract(): Contract {
    Contract("semops.mavlink.track.v1", OWNER_MAVLINK, SourceEntityPattern("mavlink", ENTITY_TRACK), "signal", ReplaceOwned,
      {TrackPosition, TrackVelocity, TrackStatus, TrackObservedAt, TrackNativeId, TrackRoll, TrackPitch, TrackYaw, TrackBattery,
       ProvenanceSource, ProvenanceConfidence, ProvenanceObservedAt, ProvenanceSourceRef},
      map[TrackSource := EntityPattern(ENTITY_ASSET)])
  }

  function TakTrackContract(): Contract {
    Contract("semops.tak.track.v1", OWNER_TAK, SourceEntityPattern("tak", ENTITY_TRACK), "signal", ReplaceOwned,
      {TrackPosition, TrackVelocity, TrackStatus, TrackObservedAt, TrackNativeId,
       ProvenanceSource, ProvenanceConfidence, ProvenanceObservedAt, ProvenanceSourceRef},
      map[TrackSource := EntityPattern(ENTITY_ASSET)])
  }

  function AdsbTrackContract(): Contract {
    Contract("semops.adsb.track.v1", OWNER_ADSB, SourceEntityPattern("adsb", ENTITY_TRACK), "signal", ReplaceOwned,
      {TrackPosition, TrackVelocity, TrackStatus, TrackObservedAt, TrackNativeId,
       ProvenanceSource, ProvenanceConfidence, ProvenanceObservedAt, ProvenanceSourceRef},
      map[])
  }

  function TakTaskContract(): Contract {
    Contract("semops.tak.task.v1", OWNER_TAK, SourceEntityPattern("tak", ENTITY_TASK), "control", ReplaceOwned,
      {TaskName, TaskKind, TaskStatus, TaskPosition, TaskDescription, TaskNativeId,
       ProvenanceSource, ProvenanceConfidence, ProvenanceObservedAt, ProvenanceSourceRef},
      map[])
  }

  function TakAdvisoryContract(): Contract {
    Contract("semops.tak.advisory.v1", OWNER_TAK, SourceEntityPattern("tak", ENTITY_ADVISORY), "content", ReplaceOwned,
      {AdvisoryText, AdvisoryKind, AdvisoryStatus, AdvisorySender, AdvisoryPosition, AdvisoryNativeId,
       ProvenanceSource, ProvenanceConfidence, ProvenanceObservedAt, ProvenanceSourceRef},
      map[])
  }

  function CapHazardEvidenceContract(): Contract {
    Contract("semops.cap.hazard.v1", OWNER_CAP, SourceEntityPattern("cap", ENTITY_HAZARD_AREA), "content", AppendEvidence,
      {HazardAdvisoryText, HazardEvidence, HazardSource,
       ProvenanceSource, ProvenanceConfidence, ProvenanceObservedAt, ProvenanceSourceRef},
      map[])
  }

  function FusionAlertContract(): Contract {
    Contract("semops.fusion.alert.v1", OWNER_FUSION, SourceEntityPattern("fusion", ENTITY_ALERT), "control", ReplaceOwned,
      {AlertSeverity, AlertStatus, AlertReason, AlertAffectedEntity, AlertSource,
       ProvenanceConfidence, ProvenanceObservedAt},
      map[])
  }

  /** Every contract of the picture: those of the first phase and that of the ADS-B feed. */
  function Contracts(): seq<Contract> {
    [SourceAssetContract(), MavlinkTrackContract(), TakTrackContract(), TakTaskContract(), TakAdvisoryContract(),
     CapHazardEvidenceContract(), FusionAlertContract(), AdsbTrackContract()]
  }
}
