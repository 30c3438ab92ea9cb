/**
 CAP alerts to graph mutations (internal/projectors/cap/projector.go): each alert leaves a
 piece of evidence at the hazard area its identifier names.
 */
module CapProjector {
  import opened Checksum
  import opened Cop
  import opened GraphService
  import opened BirthProtocol
  import opened AsIfOnce
  import opened Projection
  import opened Tokens

  const DEFAULT_CONFIDENCE := 1.0

  datatype Area = Area(areaDesc: string, polygons: seq<seq<GeoPoint>>, circles: seq<GeoCircle>)

  datatype Info = Info(
    event: string, urgency: string, severity: string, certainty: string,
    effective: nat, expires: nat, senderName: string,
    headline: string, description: string, instruction: string, areas: seq<Area>)

  /** A CAP alert; a zero time is an unset one. */
  datatype Alert = Alert(
    identifier: string, sender: string, sent: nat, status: string, msgType: string, scope: string, infos: seq<Info>)
  {
    predicate Valid() {
      TrimSpace(identifier) != "" && TrimSpace(sender) != "" && sent != 0 && TrimSpace(status) != ""
      && TrimSpace(msgType) != "" && TrimSpace(scope) != "" && infos != []
    }
  }

  method Validate(a: Alert) returns (ok: bool)
    ensures ok == a.Valid()
  {
    hide TrimSpace;
    if TrimSpace(a.identifier) == "" {
      return false;
    }
    if TrimSpace(a.sender) == "" {
      return false;
    }
    if a.sent == 0 {
      return false;
    }
    if TrimSpace(a.status) == "" {
      return false;
    }
    if TrimSpace(a.msgType) == "" {
      return false;
    }
    if TrimSpace(a.scope) == "" {
      return false;
    }
    if |a.infos| == 0 {
      return false;
    }
    return true;
  }

  datatype SourceAlert = SourceAlert(alert: Alert, sourceRef: string)

  // ---------- Evidence ----------

  const NO_INFO := Info("", "", "", "", 0, 0, "", "", "", "", [])

  function PrimaryInfo(a: Alert): Info {
    if a.infos == [] then NO_INFO else a.infos[0]
  }

  function EvidenceDocument(a: Alert): HazardDocument {
    var info := PrimaryInfo(a);
    var area := if info.areas == [] then Area("", [], []) else info.areas[0];
    HazardDocument(
      a.identifier, a.msgType, a.status, info.event, info.urgency, info.severity, info.certainty,
      a.sender, info.senderName,
      a.sent, if info.effective != 0 then info.effective else a.sent, info.expires,
      area.areaDesc, area.polygons, area.circles)
  }

  /** The non-blank ones among the texts, trimmed, a blank line between two. */
  function Paragraphs(texts: seq<string>): string {
    if texts == [] then ""
    else
      var first, rest := TrimSpace(texts[0]), Paragraphs(texts[1..]);
      if first == "" then rest else if rest == "" then first else first + "\n\n" + rest
  }

  function AdvisoryTextFor(a: Alert): string {
    var info := PrimaryInfo(a);
    if a.infos == [] then a.identifier
    else
      var text := Paragraphs([info.headline, info.description, info.instruction]);
      if text != "" then text else FirstNonEmpty([info.headline, info.event, a.identifier])
  }

  function ObservedAt(a: Alert): nat {
    if PrimaryInfo(a).effective != 0 then PrimaryInfo(a).effective else a.sent
  }

  function ConfidenceFor(a: Alert, fallback: real): real {
    var certainty := LowerAll(PrimaryInfo(a).certainty);
    if a.infos == [] then fallback
    else if certainty == "observed" then 0.95
    else if certainty == "likely" then 0.82
    else if certainty == "possible" then 0.58
    else if certainty == "unlikely" then 0.35
    else if certainty == "unknown" then 0.4
    else fallback
  }

  // ---------- Triples and intents ----------

  function HazardId(c: Config, identifier: string): string {
    Key(if c.org == "" then "c360" else c.org, if c.platform == "" then "edge" else c.platform,
        "cap", ENTITY_HAZARD_AREA, EntityToken(identifier))
  }

  function EvidenceTriples(c: Config, s: SourceAlert): seq<Triple> {
    var a := s.alert;
    var t := Stamp(HazardId(c, a.identifier), "cap", ObservedAt(a), ConfidenceFor(a, c.confidence));
    [t.Say(HazardAdvisoryText, Text(AdvisoryTextFor(a))),
     t.Say(HazardEvidence, Document(EvidenceDocument(a))),
     t.Say(HazardSource, Text("cap")),
     t.Say(ProvenanceSource, Text("cap")),
     t.Say(ProvenanceConfidence, Number(ConfidenceFor(a, c.confidence))),
     t.Say(ProvenanceObservedAt, Instant(ObservedAt(a)))]
    + IfSome(s.sourceRef != "", t.Say(ProvenanceSourceRef, Text(s.sourceRef)))
  }

  function HazardIntent(c: Config, s: SourceAlert): Intent {
    Lone(Hazard, HazardId(c, s.alert.identifier), CapHazardEvidenceContract(), EvidenceTriples(c, s))
  }

  function PartsOf(c: Config, alerts: seq<SourceAlert>): seq<seq<Intent>> {
    seq(|alerts|, i requires 0 <= i < |alerts| => [HazardIntent(c, alerts[i])])
  }

  predicate AllValid(alerts: seq<SourceAlert>) {
    forall i :: 0 <= i < |alerts| ==> alerts[i].alert.Valid()
  }

  function JobOf(c: Config, s: SourceAlert): Job {
    Job([HazardIntent(c, s)], [Ref(Hazard, HazardId(c, s.alert.identifier))])
  }

  class Projector {
    const config: Config
    var bornHazards: set<string>

    ghost function Born(): Born
      reads this
    {
      Tagged(Hazard, bornHazards)
    }

    constructor (config: Config)
      ensures this.config == WithDefaults(config, 1.0) && Born() == {}
    {
      var completed := config;
      if completed.org == "" {
        completed := completed.(org := "c360");
      }
      if completed.platform == "" {
        completed := completed.(platform := "edge");
      }
      if completed.confidence == 0.0 {
        completed := completed.(confidence := DEFAULT_CONFIDENCE);
      }
      this.config := completed;
      bornHazards := {};
    }

    /** The plan for one alert, or none if the alert is invalid. */
    method ProjectAlert(alert: Alert, sourceRef: string) returns (plan: Option<Plan>)
      ensures var s := SourceAlert(alert, sourceRef);
        plan == if alert.Valid() then Some(PlanOf([HazardIntent(config, s)], Born())) else None
    {
      hide HazardIntent;
      var hazards;
      plan, hazards := ProjectWith(SourceAlert(alert, sourceRef), bornHazards);
    }

    method ProjectAlerts(alerts: seq<SourceAlert>) returns (plan: Option<Plan>)
      ensures plan == if AllValid(alerts) then Some(PlanOf(Concat(PartsOf(config, alerts)), Born())) else None
    {
      hide HazardIntent, PlanOf, RefsOf, Concat, Alert.Valid, Tagged;
      ghost var parts := PartsOf(config, alerts);
      var hazards := bornHazards;
      var mutations := [];
      ConcatStarts(parts, Born());
      for i := 0 to |alerts|
        invariant forall k :: 0 <= k < i ==> alerts[k].alert.Valid()
        invariant mutations == PlanOf(Concat(parts[..i]), Born())
        invariant Tagged(Hazard, hazards) == Born() + RefsOf(Concat(parts[..i]))
      {
        ConcatGrows(parts, i, Born());
        var next;
        next, hazards := ProjectWith(alerts[i], hazards);
        if next.None? {
          return None;
        }
        mutations := mutations + next.value;
      }
      assert parts[..|alerts|] == parts;
      plan := Some(mutations);
    }

    /** projectAlert: the plan for one alert, and the local born set after it. */
    method ProjectWith(source: SourceAlert, bornHazards: set<string>) returns (plan: Option<Plan>, hazards: set<string>)
      ensures plan == if source.alert.Valid() then Some(PlanOf([HazardIntent(config, source)], Tagged(Hazard, bornHazards))) else None
      ensures plan.Some? ==> Tagged(Hazard, hazards) == Tagged(Hazard, bornHazards) + RefsOf([HazardIntent(config, source)])
    {
      hide PlanOf, RefsOf, Tagged, EvidenceTriples, HazardId, Alert.Valid;
      hazards := bornHazards;
      var ok := Validate(source.alert);
      if !ok {
        return None, hazards;
      }
      var hazardId := HazardId(config, source.alert.identifier);
      var triples := EvidenceTriples(config, source);
      PlanOfOne(HazardIntent(config, source), Tagged(Hazard, bornHazards));
      TaggedAdds(Hazard, bornHazards, hazardId);
      if hazardId !in hazards {
        hazards := hazards + {hazardId};
        return Some([Create(hazardId, CapHazardEvidenceContract().messageType, triples,
                            CapHazardEvidenceContract().indexingProfile, OWNER_CAP)]), hazards;
      }
      return Some([Update(hazardId, triples, CapHazardEvidenceContract().indexingProfile, OWNER_CAP)]), hazards;
    }

    method MarkBornForPlan(plan: Plan) returns (marked: nat)
      modifies this
      ensures Born() == old(Born()) + BirthsAs(plan, Hazard)
      ensures marked == |Born()| - |old(Born())|
    {
      hide BirthsAs, Tagged, Plus;
      NoBirthsYet(plan, map[], Hazard, Born());
      marked := 0;
      for i := 0 to |plan|
        invariant Born() == old(Born()) + BirthsAs(plan[..i], Hazard)
        invariant marked == |Born()| - |old(Born())|
      {
        BirthsAsGrow(plan, Hazard, i);
        PlusMoves(old(Born()), BirthsAs(plan[..i], Hazard), BirthAs(plan[i], Hazard));
        OneBirth(Hazard, bornHazards, plan[i]);
        if !plan[i].Create? || plan[i].id == "" {
          continue;
        }
        if plan[i].id in bornHazards {
          continue;
        }
        bornHazards := bornHazards + {plan[i].id};
        marked := marked + 1;
      }
      assert plan[..|plan|] == plan;
    }

    method MarkBornForAlert(alert: Alert, entityId: string) returns (known: bool)
      modifies this
      ensures known == (entityId == HazardId(config, alert.identifier))
      ensures Born() == Plus(old(Born()), if known then Some(Ref(Hazard, entityId)) else None)
    {
      hide HazardId, Tagged, KindOfId;
      HazardIdKind(config, alert.identifier);
      TaggedAdds(Hazard, bornHazards, entityId);
      if entityId == "" || entityId != HazardId(config, alert.identifier) {
        return false;
      }
      bornHazards := bornHazards + {entityId};
      return true;
    }
  }

  // ---------- The jobs are sound ----------

  lemma HazardIdKind(c: Config, identifier: string)
    ensures KindOfId(HazardId(c, identifier)) == Hazard && HazardId(c, identifier) != ""
  {
    hide Key, TypeOfId, EntityToken;
    EntityTokenIsToken(identifier);
    TypeOfKey(if c.org == "" then "c360" else c.org, if c.platform == "" then "edge" else c.platform,
              "cap", ENTITY_HAZARD_AREA, EntityToken(identifier));
  }

  /** Two alerts share a hazard exactly when their identifiers have the same token. */
  lemma AlertsShareExactly(c: Config, a: string, b: string)
    ensures HazardId(c, a) == HazardId(c, b) <==> EntityToken(a) == EntityToken(b)
  {
    hide Key, EntityToken;
    SameKeySameInstance(if c.org == "" then "c360" else c.org, if c.platform == "" then "edge" else c.platform,
                        "cap", ENTITY_HAZARD_AREA, EntityToken(a), EntityToken(b));
  }

  lemma HazardKind()
    ensures KindOf(CapHazardEvidenceContract().messageType) == Hazard
  {
    assert CapHazardEvidenceContract().messageType[7] == 'c' && SourceAssetContract().messageType[7] == 's';
    assert MavlinkTrackContract().messageType[7] == 'm' && TakTrackContract().messageType[7] == 't';
    assert AdsbTrackContract().messageType[7] == 'a' && TakTaskContract().messageType[7] == 't';
    assert TakAdvisoryContract().messageType[7] == 't';
  }

  lemma EvidenceTriplesStayOwned(c: Config, s: SourceAlert)
    ensures Within(EvidenceTriples(c, s), HazardId(c, s.alert.identifier), CapHazardEvidenceContract().predicates)
  {
    hide HazardId, AdvisoryTextFor, EvidenceDocument, ConfidenceFor, ObservedAt;
  }

  /** The job of an alert is sound and concerns exactly one entity, which it always writes to. */
  lemma JobIsSound(c: Config, s: SourceAlert)
    ensures SoundJob(JobOf(c, s), 1)
    ensures var job := JobOf(c, s);
      job.intents[0].update.Some? && RefsOf(job.intents) == {Ref(Hazard, HazardId(c, s.alert.identifier))}
  {
    hide HazardId, KindOf, KindOfId, EvidenceTriples, SoundJob;
    HazardIdKind(c, s.alert.identifier);
    HazardKind();
    EvidenceTriplesStayOwned(c, s);
    var id := HazardId(c, s.alert.identifier);
    MarkedOfOne(Ref(Hazard, id), id);
    LoneJob(Hazard, id, CapHazardEvidenceContract(), EvidenceTriples(c, s), JobOf(c, s).markable);
    PlanOfOne(HazardIntent(c, s), {});
  }

  /** ProjectAlerts gives the plans of single alerts with MarkBornForPlan after each, and creates nothing twice. */
  lemma BatchIsSequential(c: Config, alerts: seq<SourceAlert>, born: Born)
    ensures FaithfulBatch(PartsOf(c, alerts), born)
  {
    hide HazardIntent, FaithfulBatch, CreateIncludesUpdate, RefsOf, EdgesBornFirst;
    forall i | 0 <= i < |alerts|
      ensures AllWellFormed([HazardIntent(c, alerts[i])])
    {
      JobIsSound(c, alerts[i]);
      assert JobOf(c, alerts[i]).intents == [HazardIntent(c, alerts[i])];
    }
    BatchIsFaithful(PartsOf(c, alerts), born);
  }
}
