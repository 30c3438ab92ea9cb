/**
 The ownership contracts (pkg/cop/contracts.go) against what the projectors emit: every
 triple is covered by the contract whose owner the mutation names, exactly the ids of the
 "c360" organisation match the patterns, and no two contracts own the same thing.
 */
module Ownership {
  import opened Checksum
  import opened Cop
  import opened GraphService
  import opened BirthProtocol
  import opened AsIfOnce
  import opened Projection
  import opened Tokens
  import M = MavlinkProjector
  import T = CotProjector
  import D = AdsbProjector
  import H = CapProjector

  /** The mutation carries the contract's owner and profile and says nothing the contract does not list. */
  ghost predicate Covers(k: Contract, m: Mutation) {
    m.owner == k.owner && m.profile == k.indexingProfile && (m.Create? ==> m.messageType == k.messageType)
    && forall i :: 0 <= i < |m.triples| ==>
      m.triples[i].subject == m.id
      && (m.triples[i].predicate_ in k.predicates
          || (m.triples[i].predicate_ in k.foreignEdges && m.triples[i].object_.Link?))
  }

  /** Its entity matches the contract's pattern, and so do the targets of its edges. */
  ghost predicate InPlace(k: Contract, m: Mutation) {
    Matches(k.pattern, m.id)
    && forall i :: 0 <= i < |m.triples| && m.triples[i].predicate_ in k.foreignEdges ==>
      m.triples[i].object_.Link? && Matches(k.foreignEdges[m.triples[i].predicate_], m.triples[i].object_.target)
  }

  ghost predicate Covered(m: Mutation) {
    exists k <- Contracts() :: Covers(k, m)
  }

  ghost predicate Owned(m: Mutation) {
    exists k <- Contracts() :: Covers(k, m) && InPlace(k, m)
  }

  ghost predicate AllCovered(plan: Plan) {
    forall m <- plan :: Covered(m)
  }

  ghost predicate AllOwned(plan: Plan) {
    forall m <- plan :: Owned(m)
  }

  // ---------- Ids and patterns ----------

  lemma KeyMatches(pattern: seq<string>, org: string, platform: string, system: string, entityType: string, instance: string)
    requires IsSegment(system) && IsSegment(entityType) && IsSegment(instance)
    requires |pattern| == 6 && pattern[0] == "c360"
    ensures Matches(pattern, Key(org, platform, system, entityType, instance)) ==> org == "c360" && IsSegment(platform)
    ensures org == "c360" && IsSegment(platform) && pattern[1] == "*" && pattern[2] == "cop"
      && pattern[3] in ["*", system] && pattern[4] == entityType && pattern[5] == "*"
      ==> Matches(pattern, Key(org, platform, system, entityType, instance))
  {
    hide Split, IsSegment, Key;
    SplitKey(org, platform, system, entityType, instance);
    SplitSegment(org);
    SplitSegment(platform);
    C360IsSegment();
  }

  lemma C360IsSegment()
    ensures IsSegment("c360")
  {}

  lemma PatternsNameTheOrganisation()
    ensures forall k <- Contracts() :: |k.pattern| == 6 && k.pattern[0] == "c360"
  {}

  /** An id that no pattern matches belongs to nobody. */
  lemma NotOwned(m: Mutation, org: string, platform: string, system: string, entityType: string, instance: string)
    requires m.id == Key(org, platform, system, entityType, instance)
    requires IsSegment(system) && IsSegment(entityType) && IsSegment(instance)
    requires org != "c360" || !IsSegment(platform)
    ensures !Owned(m)
  {
    hide Key, Contracts, Matches, IsSegment;
    PatternsNameTheOrganisation();
    forall k | k in Contracts()
      ensures !Matches(k.pattern, m.id)
    {
      KeyMatches(k.pattern, org, platform, system, entityType, instance);
    }
  }

  // ---------- The two shapes of projections ----------

  lemma OwnTriplesAreCovered(k: Contract, m: Mutation)
    requires m.owner == k.owner && m.profile == k.indexingProfile && (m.Create? ==> m.messageType == k.messageType)
    requires Within(m.triples, m.id, k.predicates) && k.predicates !! k.foreignEdges.Keys
    ensures Covers(k, m) && (Matches(k.pattern, m.id) ==> InPlace(k, m))
  {
    hide Matches;
  }

  lemma EdgeIsCovered(k: Contract, id: string, triples: seq<Triple>, edge: Triple)
    requires Within(triples, id, k.predicates) && k.predicates !! k.foreignEdges.Keys
    requires edge.subject == id && edge.predicate_ in k.foreignEdges && edge.object_.Link?
    ensures var m := SourcedTrack(id, k, triples, edge).create;
      Covers(k, m)
      && (Matches(k.pattern, id) && Matches(k.foreignEdges[edge.predicate_], edge.object_.target) ==> InPlace(k, m))
  {
    hide Matches;
  }

  /** Mutations of an intent are covered, and owned under a condition on the configuration. */
  ghost predicate IntentOwned(i: Intent, condition: bool) {
    i.create.id == i.ref.id && Covered(i.create) && (Owned(i.create) <==> condition)
    && (i.update.Some? ==> Covered(i.update.value) && (Owned(i.update.value) <==> condition))
  }

  lemma LoneIsOwned(kind: Kind, id: string, k: Contract, triples: seq<Triple>, condition: bool)
    requires k in Contracts() && Within(triples, id, k.predicates) && k.predicates !! k.foreignEdges.Keys
    requires condition ==> Matches(k.pattern, id)
    requires !condition ==> forall m: Mutation | m.id == id :: !Owned(m)
    ensures IntentOwned(Lone(kind, id, k, triples), condition)
  {
    hide Matches, Contracts, Covers, InPlace, Within;
    var i := Lone(kind, id, k, triples);
    OwnTriplesAreCovered(k, i.create);
    OwnTriplesAreCovered(k, i.update.value);
  }

  lemma AssetIsOwned(id: string, triples: seq<Triple>, condition: bool)
    requires Within(triples, id, SourceAssetContract().predicates)
    requires condition ==> Matches(SourceAssetContract().pattern, id)
    requires !condition ==> forall m: Mutation | m.id == id :: !Owned(m)
    ensures IntentOwned(AssetBirth(id, triples), condition)
  {
    hide Matches, Covers, InPlace, Within;
    assert SourceAssetContract() == Contracts()[0];
    hide Contracts;
    OwnTriplesAreCovered(SourceAssetContract(), AssetBirth(id, triples).create);
  }

  lemma TrackIsOwned(id: string, k: Contract, triples: seq<Triple>, edge: Triple, condition: bool)
    requires k in Contracts() && Within(triples, id, k.predicates) && k.predicates !! k.foreignEdges.Keys
    requires edge.subject == id && edge.predicate_ in k.foreignEdges && edge.object_.Link?
    requires condition ==> Matches(k.pattern, id) && Matches(k.foreignEdges[edge.predicate_], edge.object_.target)
    requires !condition ==> forall m: Mutation | m.id == id :: !Owned(m)
    ensures IntentOwned(SourcedTrack(id, k, triples, edge), condition)
  {
    hide Matches, Contracts, Covers, InPlace, Within;
    OwnTriplesAreCovered(k, SourcedTrack(id, k, triples, edge).update.value);
    EdgeIsCovered(k, id, triples, edge);
  }

  lemma PlanIsOwned(intents: seq<Intent>, born: Born, condition: bool)
    requires forall i <- intents :: IntentOwned(i, condition)
    ensures AllCovered(PlanOf(intents, born))
    ensures AllOwned(PlanOf(intents, born)) <==> condition || PlanOf(intents, born) == []
  {
    hide Covered, Owned, PlanOf;
    PlanElements(intents, born);
    var plan := PlanOf(intents, born);
    forall m | m in plan
      ensures Covered(m) && (Owned(m) <==> condition)
    {
      var i :| i in intents && (m == i.create || i.update == Some(m));
      assert IntentOwned(i, condition);
    }
    if plan != [] {
      assert plan[0] in plan;
    }
  }

  // ---------- The four projectors ----------

  /** Whether ids with this organisation and platform match the patterns. */
  predicate InPattern(org: string, platform: string) {
    org == "c360" && IsSegment(platform)
  }

  lemma KeyOwnership(k: Contract, org: string, platform: string, system: string, entityType: string, instance: string)
    requires k in Contracts() && (k.pattern == SourceEntityPattern(system, entityType) || k.pattern == EntityPattern(entityType))
    requires IsSegment(system) && IsSegment(entityType) && IsSegment(instance)
    ensures var id := Key(org, platform, system, entityType, instance);
      if InPattern(org, platform) then Matches(k.pattern, id) else forall m: Mutation | m.id == id :: !Owned(m)
  {
    hide Key, Contracts, Matches, IsSegment, Owned;
    KeyMatches(k.pattern, org, platform, system, entityType, instance);
    if !InPattern(org, platform) {
      forall m: Mutation | m.id == Key(org, platform, system, entityType, instance)
        ensures !Owned(m)
      {
        NotOwned(m, org, platform, system, entityType, instance);
      }
    }
  }

  lemma Listed(k: Contract)
    requires k in Contracts()
    ensures k.predicates !! k.foreignEdges.Keys
  {}

  lemma ContractsAreListed()
    ensures SourceAssetContract() in Contracts() && MavlinkTrackContract() in Contracts() && TakTrackContract() in Contracts()
    ensures TakTaskContract() in Contracts() && TakAdvisoryContract() in Contracts()
    ensures CapHazardEvidenceContract() in Contracts() && AdsbTrackContract() in Contracts()
  {
    assert SourceAssetContract() == Contracts()[0];
    assert MavlinkTrackContract() == Contracts()[1];
    assert TakTrackContract() == Contracts()[2];
    assert TakTaskContract() == Contracts()[3];
    assert TakAdvisoryContract() == Contracts()[4];
    assert CapHazardEvidenceContract() == Contracts()[5];
    assert AdsbTrackContract() == Contracts()[7];
  }

  /** Everything a packet makes the projector write is covered, and owned exactly in the c360 organisation. */
  lemma MavlinkIsOwned(c: Config, input: Option<M.Report>, born: Born)
    ensures var plan := PlanOf(M.IntentsOf(c, input), born);
      AllCovered(plan) && (AllOwned(plan) <==> InPattern(c.org, c.platform) || plan == [])
  {
    hide M.TrackTriples, M.SourceAssetTriples, M.Instance, Key, Contracts, Matches, Owned, IsSegment, IntentOwned, InPattern, PlanOf;
    var intents := M.IntentsOf(c, input);
    if intents != [] {
      var r := input.value;
      var system := M.Instance(r.packet.systemId);
      M.InstanceIsSegment(r.packet.systemId);
      FixedSegments();
      ContractsAreListed();
      Listed(SourceAssetContract());
      Listed(MavlinkTrackContract());
      KeyOwnership(SourceAssetContract(), c.org, c.platform, "mavlink", ENTITY_ASSET, system);
      KeyOwnership(MavlinkTrackContract(), c.org, c.platform, "mavlink", ENTITY_TRACK, system);
      M.TrackTriplesStayOwned(c, r);
      M.AssetTriplesStayOwned(c, r);
      var condition := InPattern(c.org, c.platform);
      AssetIsOwned(M.SourceAssetId(c, r.packet.systemId), M.SourceAssetTriples(c, r), condition);
      TrackIsOwned(M.TrackId(c, r.packet.systemId), MavlinkTrackContract(), M.TrackTriples(c, r), M.SourceEdge(c, r), condition);
    }
    PlanIsOwned(intents, born, InPattern(c.org, c.platform));
  }

  lemma FixedSegments()
    ensures IsSegment("mavlink") && IsSegment("tak") && IsSegment("adsb") && IsSegment("cap")
    ensures IsSegment(ENTITY_ASSET) && IsSegment(ENTITY_TRACK) && IsSegment(ENTITY_TASK)
    ensures IsSegment(ENTITY_ADVISORY) && IsSegment(ENTITY_HAZARD_AREA)
  {}

  function OrDefault(s: string, fallback: string): string {
    if s == "" then fallback else s
  }

  lemma TakTrackIsOwned(c: Config, s: T.SourceEvent)
    ensures forall i <- T.TrackIntents(c, s) :: IntentOwned(i, InPattern(OrDefault(c.org, "c360"), OrDefault(c.platform, "edge")))
  {
    hide T.TrackTriples, T.SourceAssetTriples, EntityToken, Key, Contracts, Matches, Owned, IsSegment, IntentOwned, InPattern;
    if T.TrackIntents(c, s) != [] {
      var org, platform, uid := OrDefault(c.org, "c360"), OrDefault(c.platform, "edge"), s.event.uid;
      EntityTokenIsToken(uid);
      FixedSegments();
      ContractsAreListed();
      Listed(SourceAssetContract());
      Listed(TakTrackContract());
      KeyOwnership(SourceAssetContract(), org, platform, "tak", ENTITY_ASSET, EntityToken(uid));
      KeyOwnership(TakTrackContract(), org, platform, "tak", ENTITY_TRACK, EntityToken(uid));
      T.TrackTriplesStayOwned(c, s);
      T.AssetTriplesStayOwned(c, s);
      AssetIsOwned(T.SourceAssetId(c, uid), T.SourceAssetTriples(c, s), InPattern(org, platform));
      TrackIsOwned(T.TrackId(c, uid), TakTrackContract(), T.TrackTriples(c, s), T.SourceEdge(c, s), InPattern(org, platform));
    }
  }

  lemma TakTaskIsOwned(c: Config, s: T.SourceEvent)
    ensures forall i <- T.TaskIntents(c, s) :: IntentOwned(i, InPattern(OrDefault(c.org, "c360"), OrDefault(c.platform, "edge")))
  {
    hide T.TaskTriples, EntityToken, Key, Contracts, Matches, Owned, IsSegment, IntentOwned, InPattern;
    if T.TaskIntents(c, s) != [] {
      var org, platform, uid := OrDefault(c.org, "c360"), OrDefault(c.platform, "edge"), s.event.uid;
      EntityTokenIsToken(uid);
      FixedSegments();
      ContractsAreListed();
      Listed(TakTaskContract());
      KeyOwnership(TakTaskContract(), org, platform, "tak", ENTITY_TASK, EntityToken(uid));
      T.TaskTriplesStayOwned(c, s);
      LoneIsOwned(Task, T.TaskId(c, uid), TakTaskContract(), T.TaskTriples(c, s), InPattern(org, platform));
    }
  }

  lemma TakAdvisoryIsOwned(c: Config, s: T.SourceEvent)
    ensures forall i <- T.AdvisoryIntents(c, s) :: IntentOwned(i, InPattern(OrDefault(c.org, "c360"), OrDefault(c.platform, "edge")))
  {
    hide T.AdvisoryTriples, EntityToken, Key, Contracts, Matches, Owned, IsSegment, IntentOwned, InPattern;
    if T.AdvisoryIntents(c, s) != [] {
      var org, platform, uid := OrDefault(c.org, "c360"), OrDefault(c.platform, "edge"), s.event.uid;
      EntityTokenIsToken(uid);
      FixedSegments();
      ContractsAreListed();
      Listed(TakAdvisoryContract());
      KeyOwnership(TakAdvisoryContract(), org, platform, "tak", ENTITY_ADVISORY, EntityToken(uid));
      T.AdvisoryTriplesStayOwned(c, s);
      LoneIsOwned(Advisory, T.AdvisoryId(c, uid), TakAdvisoryContract(), T.AdvisoryTriples(c, s), InPattern(org, platform));
    }
  }

  lemma TakIsOwned(c: Config, s: T.SourceEvent, born: Born)
    ensures var plan := PlanOf(T.IntentsOf(c, s), born);
      AllCovered(plan)
      && (AllOwned(plan) <==> InPattern(OrDefault(c.org, "c360"), OrDefault(c.platform, "edge")) || plan == [])
  {
    hide T.TrackIntents, T.TaskIntents, T.AdvisoryIntents, IntentOwned, InPattern, PlanOf, AllCovered, AllOwned;
    TakTrackIsOwned(c, s);
    TakTaskIsOwned(c, s);
    TakAdvisoryIsOwned(c, s);
    PlanIsOwned(T.IntentsOf(c, s), born, InPattern(OrDefault(c.org, "c360"), OrDefault(c.platform, "edge")));
  }

  /** The ADS-B projector makes tokens of organisation and platform first, so only the organisation matters. */
  lemma AdsbIsOwned(c: Config, states: seq<D.SourceState>, born: Born)
    ensures var plan := PlanOf(Concat(D.PartsOf(c, states)), born);
      AllCovered(plan) && (AllOwned(plan) <==> EntityToken(c.org) == "c360" || plan == [])
  {
    hide D.TrackTriples, EntityToken, Key, Contracts, Matches, Owned, IntentOwned, PlanOf, Concat, D.PartsOf, AllCovered, AllOwned;
    var intents := Concat(D.PartsOf(c, states));
    D.ConcatOfOnes(c, states);
    var org, platform := EntityToken(c.org), EntityToken(c.platform);
    EntityTokenIsToken(c.platform);
    forall i | 0 <= i < |intents|
      ensures IntentOwned(intents[i], org == "c360")
    {
      AircraftIsOwned(c, states[i]);
    }
    PlanIsOwned(intents, born, org == "c360");
  }

  lemma AircraftIsOwned(c: Config, s: D.SourceState)
    ensures IntentOwned(D.TrackIntent(c, s), EntityToken(c.org) == "c360")
  {
    hide D.TrackTriples, EntityToken, Key, Contracts, Matches, Owned, IntentOwned, IsSegment;
    var org, platform, icao24 := EntityToken(c.org), EntityToken(c.platform), s.state.icao24;
    EntityTokenIsToken(icao24);
    EntityTokenIsToken(c.platform);
    FixedSegments();
    ContractsAreListed();
    Listed(AdsbTrackContract());
    KeyOwnership(AdsbTrackContract(), org, platform, "adsb", ENTITY_TRACK, EntityToken(icao24));
    D.TrackTriplesStayOwned(c, s);
    LoneIsOwned(Track, D.TrackId(c, icao24), AdsbTrackContract(), D.TrackTriples(c, s), org == "c360");
  }

  lemma CapIsOwned(c: Config, s: H.SourceAlert, born: Born)
    ensures var plan := PlanOf(H.JobOf(c, s).intents, born);
      AllCovered(plan)
      && (AllOwned(plan) <==> InPattern(OrDefault(c.org, "c360"), OrDefault(c.platform, "edge")) || plan == [])
  {
    hide H.EvidenceTriples, EntityToken, Key, Contracts, Matches, Owned, IntentOwned, IsSegment, InPattern, PlanOf, AllCovered, AllOwned;
    var org, platform, identifier := OrDefault(c.org, "c360"), OrDefault(c.platform, "edge"), s.alert.identifier;
    EntityTokenIsToken(identifier);
    FixedSegments();
    ContractsAreListed();
    Listed(CapHazardEvidenceContract());
    KeyOwnership(CapHazardEvidenceContract(), org, platform, "cap", ENTITY_HAZARD_AREA, EntityToken(identifier));
    H.EvidenceTriplesStayOwned(c, s);
    LoneIsOwned(Hazard, H.HazardId(c, identifier), CapHazardEvidenceContract(), H.EvidenceTriples(c, s), InPattern(org, platform));
    PlanIsOwned(H.JobOf(c, s).intents, born, InPattern(org, platform));
  }

  // ---------- No shared ownership ----------

  ghost predicate Owns(k: Contract, id: string, p: Predicate) {
    k.mode == ReplaceOwned && Matches(k.pattern, id) && (p in k.predicates || p in k.foreignEdges)
  }

  /** Two patterns that differ in a fixed segment match no common id. */
  lemma PatternsApart(p: seq<string>, q: seq<string>, i: nat, id: string)
    requires i < |p| && i < |q| && p[i] != "*" && q[i] != "*" && p[i] != q[i]
    ensures !(Matches(p, id) && Matches(q, id))
  {
    hide Split;
  }

  /** Where the patterns of two contracts differ: in the entity type, or else in the system. */
  lemma DifferingSegment(i: nat, j: nat) returns (at: nat)
    requires i < j < |Contracts()|
    ensures var (p, q) := (Contracts()[i].pattern, Contracts()[j].pattern);
      at < |p| && at < |q| && p[at] != "*" && q[at] != "*" && p[at] != q[at]
  {
    EntityTypesDiffer();
    SystemsDiffer();
    at := if Contracts()[i].pattern[4] != Contracts()[j].pattern[4] then 4 else 3;
  }

  lemma EntityTypesDiffer()
    ensures ENTITY_TRACK != ENTITY_ASSET && ENTITY_ASSET != ENTITY_HAZARD_AREA && ENTITY_TRACK != ENTITY_HAZARD_AREA
    ensures ENTITY_ALERT !in {ENTITY_TRACK, ENTITY_ASSET, ENTITY_HAZARD_AREA, ENTITY_TASK, ENTITY_ADVISORY}
    ensures ENTITY_TASK !in {ENTITY_TRACK, ENTITY_ASSET, ENTITY_HAZARD_AREA, ENTITY_ADVISORY}
    ensures ENTITY_ADVISORY !in {ENTITY_TRACK, ENTITY_ASSET, ENTITY_HAZARD_AREA}
    ensures "*" !in {ENTITY_TRACK, ENTITY_ASSET, ENTITY_HAZARD_AREA, ENTITY_ALERT, ENTITY_TASK, ENTITY_ADVISORY}
  {
    assert ENTITY_TRACK[0] == 't' && ENTITY_ASSET[0] == 'a' && ENTITY_ASSET[1] == 's' && ENTITY_HAZARD_AREA[0] == 'h';
    assert ENTITY_ALERT[0] == 'a' && ENTITY_ALERT[1] == 'l' && ENTITY_TASK[1] == 'a' && ENTITY_TRACK[1] == 'r';
    assert ENTITY_ADVISORY[1] == 'd' && ENTITY_ADVISORY[0] == 'a' && ENTITY_TASK[0] == 't';
  }

  lemma SystemsDiffer()
    ensures "mavlink" != "tak" && "tak" != "adsb" && "mavlink" != "adsb"
    ensures "*" !in {"mavlink", "tak", "adsb", "cap", "fusion"}
  {
    assert "mavlink"[0] == 'm' && "tak"[0] == 't' && "adsb"[0] == 'a';
  }

  /** At most one contract owns a given predicate of a given entity. */
  lemma OwnershipIsExclusive(i: nat, j: nat, id: string, p: Predicate)
    requires i < |Contracts()| && j < |Contracts()|
    requires Owns(Contracts()[i], id, p) && Owns(Contracts()[j], id, p)
    ensures i == j
  {
    hide Contracts, Matches;
    if i != j {
      var lo, hi := if i < j then i else j, if i < j then j else i;
      var at := DifferingSegment(lo, hi);
      PatternsApart(Contracts()[lo].pattern, Contracts()[hi].pattern, at, id);
    }
  }
}
