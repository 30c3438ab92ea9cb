/**
 Hazards of the operating picture (hazardFromEntity and latestPropertyValue in
 internal/api/cop/graph_provider.go) over the evidence that civil alerts append: the newest
 evidence decides, wherever it stands.
 */
module Hazards {
  import opened Checksum
  import opened Cop
  import opened Outlines
  import opened Projection
  import opened Tokens
  import H = CapProjector

  // ---------- The latest value of a predicate ----------

  function Latest(triples: seq<Triple>, p: Predicate): Option<Triple> {
    if triples == [] then None
    else
      var before, last := Latest(triples[..|triples| - 1], p), triples[|triples| - 1];
      if last.predicate_ == p && (before.None? || last.timestamp >= before.value.timestamp) then Some(last) else before
  }

  /** An entity as it is read: its triples, its time stamp, and what the graph library's own lookup finds. */
  datatype EntityState = EntityState(triples: seq<Triple>, updated: nat, properties: map<Predicate, Value>)

  function PropertyValue(e: EntityState, p: Predicate): Option<Value> {
    if p in e.properties then Some(e.properties[p]) else None
  }

  function LatestValue(e: EntityState, p: Predicate): Option<Value> {
    match Latest(e.triples, p)
    case None => PropertyValue(e, p)
    case Some(t) => Some(t.object_)
  }

  method LatestPropertyValue(e: EntityState, p: Predicate) returns (value: Option<Value>)
    ensures value == LatestValue(e, p)
  {
    var latest, selectedIndex := 0, 0;
    value := None;
    for index := 0 to |e.triples|
      invariant selectedIndex <= index && (value.Some? ==> selectedIndex < index)
      invariant match Latest(e.triples[..index], p)
        case None => value == None
        case Some(t) => value == Some(t.object_) && latest == t.timestamp
    {
      assert e.triples[..index + 1][..index] == e.triples[..index];
      var triple := e.triples[index];
      if triple.predicate_ != p {
        continue;
      }
      if value.None? || triple.timestamp > latest || (triple.timestamp == latest && index > selectedIndex) {
        value, latest, selectedIndex := Some(triple.object_), triple.timestamp, index;
      }
    }
    assert e.triples[..|e.triples|] == e.triples;
    if value.None? {
      value := PropertyValue(e, p);
    }
  }

  /** The triple about the predicate with the greatest time, and among those the greatest index. */
  predicate IsGreatest(triples: seq<Triple>, p: Predicate, i: nat) {
    i < |triples| && triples[i].predicate_ == p
    && forall j :: 0 <= j < |triples| && triples[j].predicate_ == p ==>
      triples[j].timestamp < triples[i].timestamp || (triples[j].timestamp == triples[i].timestamp && j <= i)
  }

  lemma LastIsGreatest(triples: seq<Triple>, p: Predicate)
    requires triples != [] && triples[|triples| - 1].predicate_ == p
    requires forall t <- triples[..|triples| - 1] :: t.predicate_ == p ==> t.timestamp <= triples[|triples| - 1].timestamp
    ensures IsGreatest(triples, p, |triples| - 1)
  {
    assert forall j :: 0 <= j < |triples| - 1 ==> triples[j] in triples[..|triples| - 1];
  }

  lemma StaysGreatest(triples: seq<Triple>, p: Predicate, i: nat)
    requires triples != [] && IsGreatest(triples[..|triples| - 1], p, i)
    requires var last := triples[|triples| - 1]; last.predicate_ == p ==> last.timestamp < triples[i].timestamp
    ensures IsGreatest(triples, p, i)
  {
    var init := triples[..|triples| - 1];
    assert forall j :: 0 <= j < |init| ==> init[j] == triples[j];
  }

  lemma LastBeats(triples: seq<Triple>, p: Predicate, i: nat)
    requires triples != [] && triples[|triples| - 1].predicate_ == p
    requires IsGreatest(triples[..|triples| - 1], p, i) && triples[|triples| - 1].timestamp >= triples[i].timestamp
    ensures IsGreatest(triples, p, |triples| - 1)
  {
    var init := triples[..|triples| - 1];
    assert forall t <- init :: t.predicate_ == p ==> t.timestamp <= init[i].timestamp;
    LastIsGreatest(triples, p);
  }

  lemma {:induction false} LatestIsGreatest(triples: seq<Triple>, p: Predicate)
    ensures match Latest(triples, p)
      case None => forall t <- triples :: t.predicate_ != p
      case Some(t) => exists i: nat :: i < |triples| && IsGreatest(triples, p, i) && triples[i] == t
  {
    hide IsGreatest;
    if triples != [] {
      var n := |triples| - 1;
      var init, last := triples[..n], triples[n];
      LatestIsGreatest(init, p);
      var before := Latest(init, p);
      if before.Some? {
        var i: nat :| i < |init| && IsGreatest(init, p, i) && init[i] == before.value;
        if last.predicate_ == p && last.timestamp >= before.value.timestamp {
          LastBeats(triples, p, i);
        } else {
          StaysGreatest(triples, p, i);
        }
      } else if last.predicate_ == p {
        LastIsGreatest(triples, p);
      } else {
        assert triples == init + [last];
      }
    }
  }

  /** Later triples win only if they are at least as new. */
  lemma {:induction false} LatestAppend(a: seq<Triple>, b: seq<Triple>, p: Predicate)
    ensures Latest(a + b, p) == Newer(Latest(a, p), Latest(b, p))
    decreases |b|
  {
    if b == [] {
      assert a + b == a;
    } else {
      var init := b[..|b| - 1];
      assert (a + b)[..|a + b| - 1] == a + init;
      LatestAppend(a, init, p);
    }
  }

  function Newer(a: Option<Triple>, b: Option<Triple>): Option<Triple> {
    if b.None? || (a.Some? && b.value.timestamp < a.value.timestamp) then a else b
  }

  predicate DistinctTimes(triples: seq<Triple>, p: Predicate) {
    forall i, j :: 0 <= i < j < |triples| && triples[i].predicate_ == p && triples[j].predicate_ == p ==>
      triples[i].timestamp != triples[j].timestamp
  }

  lemma GreatestAgree(a: seq<Triple>, b: seq<Triple>, p: Predicate, i: nat, j: nat)
    requires multiset(a) == multiset(b) && DistinctTimes(a, p)
    requires i < |a| && j < |b| && IsGreatest(a, p, i) && IsGreatest(b, p, j)
    ensures a[i] == b[j]
  {
    SameElements(a, b, a[i]);
    SameElements(b, a, b[j]);
    var k: nat :| k < |a| && a[k] == b[j];
    assert a[i].timestamp == a[k].timestamp;
  }

  /** Reordering evidence of distinct times changes nothing. */
  lemma OrderDoesNotMatter(a: seq<Triple>, b: seq<Triple>, p: Predicate)
    requires multiset(a) == multiset(b) && DistinctTimes(a, p)
    ensures Latest(a, p) == Latest(b, p)
  {
    hide Latest, DistinctTimes;
    LatestIsGreatest(a, p);
    LatestIsGreatest(b, p);
    match (Latest(a, p), Latest(b, p))
    case (None, None) =>
    case (Some(t), None) =>
      SameElements(a, b, t);
    case (None, Some(u)) =>
      SameElements(b, a, u);
    case (Some(t), Some(u)) =>
      hide IsGreatest;
      var i: nat :| i < |a| && IsGreatest(a, p, i) && a[i] == t;
      var j: nat :| j < |b| && IsGreatest(b, p, j) && b[j] == u;
      GreatestAgree(a, b, p, i, j);
  }

  lemma SameElements(a: seq<Triple>, b: seq<Triple>, t: Triple)
    requires multiset(a) == multiset(b) && t in a
    ensures exists j: nat :: j < |b| && b[j] == t
  {
    assert t in multiset(a);
    assert t in b;
  }

  // ---------- From evidence to a hazard ----------

  function FreshnessStatus(status: string, now: nat, updatedAt: nat, freshness: int): string {
    if freshness <= 0 || updatedAt == 0 || now - updatedAt <= freshness then status
    else if status == "active.update" then "stale.update"
    else "stale"
  }

  function Folded(s: string): string {
    LowerAll(TrimSpace(s))
  }

  function HazardStatus(d: HazardDocument, now: nat, updatedAt: nat, freshness: int): string {
    var capStatus, kind := Folded(d.status), Folded(d.messageType);
    if capStatus != "" && capStatus != "actual" then "nonoperational." + capStatus
    else if kind == "cancel" then "cancelled"
    else if kind == "error" then "error"
    else if kind == "ack" then "acknowledged"
    else if d.expires != 0 && now != 0 && d.expires <= now then "expired"
    else FreshnessStatus(if kind == "update" then "active.update" else "active", now, updatedAt, freshness)
  }

  /** What the picture shows of a hazard. */
  datatype Hazard = Hazard(status: string, outline: Outline, severity: string, updatedAt: nat)

  /** The document behind an evidence value, unless it says nothing. */
  function DocumentOf(v: Option<Value>): Option<HazardDocument> {
    if v.None? || !v.value.Document? then None
    else
      var d := v.value.evidence;
      if d.identifier == "" && d.event == "" && d.polygons == [] && d.circles == [] then None else Some(d)
  }

  /** A time that an observation records, if it does. */
  function TimeOf(v: Option<Value>): Option<nat> {
    if v.Some? && v.value.Instant? && v.value.time > 0 then Some(v.value.time) else None
  }

  /**
   The latest observation time; failing that what the library finds, then the newest of all
   times, then the clock.
   */
  function UpdatedAt(e: EntityState, clock: nat): nat {
    var latest, found := TimeOf(LatestValue(e, ProvenanceObservedAt)), TimeOf(PropertyValue(e, ProvenanceObservedAt));
    if latest.Some? then latest.value
    else if found.Some? then found.value
    else
      var newest := NewestTime(e.triples, e.updated);
      if newest == 0 then clock else newest
  }

  function NewestTime(triples: seq<Triple>, least: nat): nat {
    if triples == [] then least
    else
      var rest := NewestTime(triples[..|triples| - 1], least);
      var t := triples[|triples| - 1].timestamp;
      if t > rest then t else rest
  }

  function Shown(d: HazardDocument, now: nat, updatedAt: nat, freshness: int, cosine: Cosine): Option<Hazard> {
    var outline := HazardGeometry(d, cosine);
    var severity := TrimSpace(d.severity);
    if outline == Nothing then None
    else
      Some(Hazard(HazardStatus(d, now, updatedAt, freshness), outline,
                  LowerAll(if severity == "" then "unknown" else severity), updatedAt))
  }

  function HazardFrom(e: EntityState, now: nat, freshness: int, cosine: Cosine): Option<Hazard> {
    var d := DocumentOf(LatestValue(e, HazardEvidence));
    if d.None? then None else Shown(d.value, now, UpdatedAt(e, now), freshness, cosine)
  }

  lemma {:induction false} NewestTimeIsGreatest(triples: seq<Triple>, least: nat)
    ensures var t := NewestTime(triples, least);
      t >= least && (forall i :: 0 <= i < |triples| ==> triples[i].timestamp <= t)
      && (t == least || exists i :: 0 <= i < |triples| && triples[i].timestamp == t)
  {
    if triples != [] {
      NewestTimeIsGreatest(triples[..|triples| - 1], least);
    }
  }

  lemma NewestTimeIgnoresOrder(a: seq<Triple>, b: seq<Triple>, least: nat)
    requires multiset(a) == multiset(b)
    ensures NewestTime(a, least) == NewestTime(b, least)
  {
    NewestTimeIsGreatest(a, least);
    NewestTimeIsGreatest(b, least);
    if i :| 0 <= i < |a| && a[i].timestamp == NewestTime(a, least) {
      SameElements(a, b, a[i]);
    }
    if i :| 0 <= i < |b| && b[i].timestamp == NewestTime(b, least) {
      SameElements(b, a, b[i]);
    }
  }

  /** However the triples of a hazard are ordered, evidence and observations of distinct times show the same. */
  lemma OrderDoesNotShow(e: EntityState, triples: seq<Triple>, now: nat, freshness: int, cosine: Cosine)
    requires multiset(triples) == multiset(e.triples)
    requires DistinctTimes(e.triples, HazardEvidence) && DistinctTimes(e.triples, ProvenanceObservedAt)
    ensures HazardFrom(e.(triples := triples), now, freshness, cosine) == HazardFrom(e, now, freshness, cosine)
  {
    hide Latest, Shown, DocumentOf, DistinctTimes, NewestTime;
    OrderDoesNotMatter(e.triples, triples, HazardEvidence);
    OrderDoesNotMatter(e.triples, triples, ProvenanceObservedAt);
    NewestTimeIgnoresOrder(e.triples, triples, e.updated);
  }

  // ---------- As the code computes it ----------

  /** latestObservedAt with its fallback, observedAt. */
  method LatestObservedAt(e: EntityState, clock: nat) returns (time: nat)
    ensures time == UpdatedAt(e, clock)
  {
    var value := LatestPropertyValue(e, ProvenanceObservedAt);
    if value.Some? && value.value.Instant? && value.value.time > 0 {
      return value.value.time;
    }
    if ProvenanceObservedAt in e.properties {
      var found := e.properties[ProvenanceObservedAt];
      if found.Instant? && found.time > 0 {
        return found.time;
      }
    }
    var latest := e.updated;
    for i := 0 to |e.triples|
      invariant latest == NewestTime(e.triples[..i], e.updated)
    {
      assert e.triples[..i + 1][..i] == e.triples[..i];
      if e.triples[i].timestamp > latest {
        latest := e.triples[i].timestamp;
      }
    }
    assert e.triples[..|e.triples|] == e.triples;
    return if latest == 0 then clock else latest;
  }

  method StatusShown(d: HazardDocument, now: nat, updatedAt: nat, freshness: int) returns (status: string)
    ensures status == HazardStatus(d, now, updatedAt, freshness)
  {
    hide TrimSpace, LowerAll;
    var capStatus := LowerAll(TrimSpace(d.status));
    if capStatus != "" && capStatus != "actual" {
      return "nonoperational." + capStatus;
    }
    var kind := LowerAll(TrimSpace(d.messageType));
    if kind == "cancel" {
      return "cancelled";
    }
    if kind == "error" {
      return "error";
    }
    if kind == "ack" {
      return "acknowledged";
    }
    if d.expires != 0 && now != 0 && !(d.expires > now) {
      return "expired";
    }
    status := "active";
    if kind == "update" {
      status := "active.update";
    }
    if freshness <= 0 || updatedAt == 0 || now - updatedAt <= freshness {
      return;
    }
    status := if kind == "update" then "stale.update" else "stale";
  }

  method HazardFromEntity(e: EntityState, now: nat, freshness: int, cosine: Cosine) returns (hazard: Option<Hazard>)
    ensures hazard == HazardFrom(e, now, freshness, cosine)
  {
    hide TrimSpace, LowerAll, HazardGeometry, HazardStatus, LatestValue, UpdatedAt;
    var value := LatestPropertyValue(e, HazardEvidence);
    if value.None? || !value.value.Document? {
      return None;
    }
    var evidence := value.value.evidence;
    if evidence.identifier == "" && evidence.event == "" && |evidence.polygons| == 0 && |evidence.circles| == 0 {
      return None;
    }
    var outline := DrawHazard(evidence, cosine);
    if outline == Nothing {
      return None;
    }
    var updatedAt := LatestObservedAt(e, now);
    var severity := TrimSpace(evidence.severity);
    if severity == "" {
      severity := "unknown";
    }
    var status := StatusShown(evidence, now, updatedAt, freshness);
    return Some(Hazard(status, outline, LowerAll(severity), updatedAt));
  }
}
