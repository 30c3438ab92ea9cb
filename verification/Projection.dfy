/**
 What the four projectors share: their configuration, their triples, and the births that
 MarkBornForPlan reads off a plan.
 */
module Projection {
  import opened Checksum
  import opened Cop
  import opened GraphService
  import opened BirthProtocol
  import opened AsIfOnce

  datatype Config = Config(org: string, platform: string, confidence: real)

  /** The configuration as the constructors complete it. */
  function WithDefaults(c: Config, confidence: real): Config {
    Config(
      if c.org == "" then "c360" else c.org,
      if c.platform == "" then "edge" else c.platform,
      if c.confidence == 0.0 then confidence else c.confidence)
  }

  /** What all triples of one projection of one entity have in common. */
  datatype Stamp = Stamp(subject: string, source: string, time: int, confidence: real) {
    function Say(predicate_: Predicate, object_: Value): Triple {
      Triple(subject, predicate_, object_, source, time, confidence)
    }
  }

  function IfSome(condition: bool, t: Triple): seq<Triple> {
    if condition then [t] else []
  }

  // ---------- Rounded numbers ----------

  /** Rounded to hundredths, ties away from zero. */
  function Hundredths(x: real): real {
    if x >= 0.0 then (x * 100.0 + 0.5).Floor as real / 100.0 else -((-x * 100.0 + 0.5).Floor as real / 100.0)
  }

  /** Rounded to seven decimals, ties to even, as coordinates are printed. */
  function SevenDecimals(x: real): real {
    var down := (x * 10000000.0).Floor;
    var rest := x * 10000000.0 - down as real;
    (if rest < 0.5 || (rest == 0.5 && down % 2 == 0) then down else down + 1) as real / 10000000.0
  }

  predicate IsWhole(x: real) {
    x.Floor as real == x
  }

  /** A multiple of a hundredth within half a hundredth; of two such the one farther from zero. */
  predicate IsNearestHundredth(x: real, rounded: real) {
    IsWhole(rounded * 100.0)
    && (if x >= 0.0 then -0.005 < rounded - x <= 0.005 else -0.005 <= rounded - x < 0.005)
  }

  /** A multiple of the seventh decimal within half a unit; of two such the even one. */
  predicate IsNearestSeventh(x: real, rounded: real) {
    IsWhole(rounded * 10000000.0)
    && -0.00000005 <= rounded - x <= 0.00000005
    && (rounded - x == 0.00000005 || x - rounded == 0.00000005 ==> (rounded * 10000000.0).Floor % 2 == 0)
  }

  lemma WholeUnits(n: int, x: real)
    requires n as real == x
    ensures IsWhole(x) && x.Floor == n
  {}

  lemma HundredthsAreNearest(x: real)
    ensures IsNearestHundredth(x, Hundredths(x))
  {
    hide IsWhole;
    var n := if x >= 0.0 then (x * 100.0 + 0.5).Floor else -(-x * 100.0 + 0.5).Floor;
    assert Hundredths(x) == n as real / 100.0;
    WholeUnits(n, Hundredths(x) * 100.0);
  }

  lemma SevenDecimalsAreNearest(x: real)
    ensures IsNearestSeventh(x, SevenDecimals(x))
  {
    hide IsWhole;
    var down := (x * 10000000.0).Floor;
    var rest := x * 10000000.0 - down as real;
    var n := if rest < 0.5 || (rest == 0.5 && down % 2 == 0) then down else down + 1;
    assert SevenDecimals(x) == n as real / 10000000.0;
    WholeUnits(n, SevenDecimals(x) * 10000000.0);
  }

  /** Whole numbers less than one apart are equal. */
  lemma WholeAndClose(a: real, b: real)
    requires IsWhole(a) && IsWhole(b) && -1.0 < a - b < 1.0
    ensures a == b
  {
    CloseIntegers(a.Floor, b.Floor);
  }

  lemma CloseIntegers(m: int, n: int)
    requires -1.0 < m as real - n as real < 1.0
    ensures m == n
  {
    assert m as real - n as real == (m - n) as real;
  }

  lemma HundredthsExactly(x: real, rounded: real)
    ensures IsNearestHundredth(x, rounded) <==> rounded == Hundredths(x)
  {
    hide IsWhole, Hundredths;
    HundredthsAreNearest(x);
    if IsNearestHundredth(x, rounded) {
      WholeAndClose(rounded * 100.0, Hundredths(x) * 100.0);
    }
  }

  lemma OneApart(m: int, n: int)
    requires -1.0 <= m as real - n as real <= 1.0
    ensures m == n || m == n + 1 || n == m + 1
  {
    assert m as real - n as real == (m - n) as real;
  }

  lemma SevenDecimalsExactly(x: real, rounded: real)
    ensures IsNearestSeventh(x, rounded) <==> rounded == SevenDecimals(x)
  {
    hide SevenDecimals;
    SevenDecimalsAreNearest(x);
    var other := SevenDecimals(x);
    if IsNearestSeventh(x, rounded) {
      var a, b := (rounded * 10000000.0).Floor, (other * 10000000.0).Floor;
      OneApart(a, b);
    }
  }

  /** Coordinates that come in units of the seventh decimal are printed as they are. */
  lemma SevenDecimalsAreExact(n: int)
    ensures SevenDecimals(n as real / 10000000.0) == n as real / 10000000.0
  {}

  // ---------- Born sets ----------

  function Tagged(kind: Kind, ids: set<string>): Born {
    set id <- ids :: Ref(kind, id)
  }

  lemma TaggedAdds(kind: Kind, ids: set<string>, id: string)
    ensures Tagged(kind, ids + {id}) == Tagged(kind, ids) + {Ref(kind, id)}
    ensures Ref(kind, id) in Tagged(kind, ids) <==> id in ids
  {
    forall r | r in Tagged(kind, ids) + {Ref(kind, id)}
      ensures r in Tagged(kind, ids + {id})
    {
      assert r.id in ids + {id};
    }
  }

  /** Born sets with one more birth, if there is one. */
  function Plus(born: Born, r: Option<Ref>): (more: Born)
    ensures |more| == |born| + if r.Some? && r.value !in born then 1 else 0
  {
    if r.None? || r.value in born then born else born + {r.value}
  }

  lemma PlusMoves(a: Born, b: Born, r: Option<Ref>)
    ensures Plus(a + b, r) == a + Plus(b, r)
    ensures r.Some? ==> Plus(a, r) == a + {r.value}
  {}

  /** The entity whose birth a mutation announces, going by its message type. */
  function BirthOf(m: Mutation, kinds: map<string, Kind>): Option<Ref> {
    if m.Create? && m.id != "" && m.messageType in kinds then Some(Ref(kinds[m.messageType], m.id)) else None
  }

  function Births(plan: Plan, kinds: map<string, Kind>): Born {
    set i | 0 <= i < |plan| && BirthOf(plan[i], kinds).Some? :: BirthOf(plan[i], kinds).value
  }

  /** The births of a plan whose creates are all taken for one kind, whatever their message type. */
  function BirthsAs(plan: Plan, kind: Kind): Born {
    set i | 0 <= i < |plan| && BirthAs(plan[i], kind).Some? :: BirthAs(plan[i], kind).value
  }

  function BirthAs(m: Mutation, kind: Kind): Option<Ref> {
    if m.Create? && m.id != "" then Some(Ref(kind, m.id)) else None
  }

  lemma BirthsGrow(plan: Plan, kinds: map<string, Kind>, k: nat)
    requires k < |plan|
    ensures Births(plan[..k + 1], kinds) == Plus(Births(plan[..k], kinds), BirthOf(plan[k], kinds))
  {
    hide BirthOf;
    var before, after := plan[..k], plan[..k + 1];
    forall r | r in Births(before, kinds)
      ensures r in Births(after, kinds)
    {
      var i :| 0 <= i < k && BirthOf(before[i], kinds).Some? && BirthOf(before[i], kinds).value == r;
      assert after[i] == before[i];
    }
    assert after[k] == plan[k];
    forall r | r in Births(after, kinds)
      ensures r in Births(before, kinds) || BirthOf(plan[k], kinds) == Some(r)
    {
      var i :| 0 <= i < k + 1 && BirthOf(after[i], kinds).Some? && BirthOf(after[i], kinds).value == r;
      if i < k {
        assert after[i] == before[i];
      }
    }
  }

  lemma BirthsAsGrow(plan: Plan, kind: Kind, k: nat)
    requires k < |plan|
    ensures BirthsAs(plan[..k + 1], kind) == Plus(BirthsAs(plan[..k], kind), BirthAs(plan[k], kind))
  {
    hide BirthAs;
    var before, after := plan[..k], plan[..k + 1];
    forall r | r in BirthsAs(before, kind)
      ensures r in BirthsAs(after, kind)
    {
      var i :| 0 <= i < k && BirthAs(before[i], kind).Some? && BirthAs(before[i], kind).value == r;
      assert after[i] == before[i];
    }
    assert after[k] == plan[k];
    forall r | r in BirthsAs(after, kind)
      ensures r in BirthsAs(before, kind) || BirthAs(plan[k], kind) == Some(r)
    {
      var i :| 0 <= i < k + 1 && BirthAs(after[i], kind).Some? && BirthAs(after[i], kind).value == r;
      if i < k {
        assert after[i] == before[i];
      }
    }
  }

  /** Every mutation of a plan is the birth or the update of one of its intents. */
  lemma {:induction false} PlanElements(intents: seq<Intent>, born: Born)
    ensures forall m <- PlanOf(intents, born) :: exists i <- intents :: m == i.create || i.update == Some(m)
  {
    if intents != [] {
      var first, rest := intents[0], intents[1..];
      PlanElements(rest, born + {first.ref});
      forall m | m in PlanOf(intents, born)
        ensures exists i <- intents :: m == i.create || i.update == Some(m)
      {
        if m in Step(first, born) {
          assert first in intents;
        } else {
          assert m in PlanOf(rest, born + {first.ref});
          var i :| i in rest && (m == i.create || i.update == Some(m));
          assert i in intents;
        }
      }
    }
  }

  /** Whether the message type tells the kind of every birth. */
  ghost predicate Announces(intents: seq<Intent>, kinds: map<string, Kind>) {
    forall i <- intents :: i.WellFormed() && i.create.messageType in kinds && kinds[i.create.messageType] == i.ref.kind
  }

  lemma CreateInPlan(intents: seq<Intent>, born: Born, k: nat) returns (i: Intent)
    requires AllWellFormed(intents) && k < |PlanOf(intents, born)| && PlanOf(intents, born)[k].Create?
    ensures i in intents && PlanOf(intents, born)[k] == i.create
  {
    hide KindOfId, KindOf, PlanOf;
    PlanElements(intents, born);
    var m := PlanOf(intents, born)[k];
    assert m in PlanOf(intents, born);
    i :| i in intents && (m == i.create || i.update == Some(m));
    assert i.WellFormed();
  }

  /** On a projector's own plans the births read off message types are exactly what the plan creates. */
  lemma OwnBirths(intents: seq<Intent>, born: Born, kinds: map<string, Kind>)
    requires Announces(intents, kinds)
    ensures Births(PlanOf(intents, born), kinds) == CreatedBy(PlanOf(intents, born))
  {
    hide KindOfId, PlanOf, KindOf;
    var plan := PlanOf(intents, born);
    forall k | 0 <= k < |plan| && plan[k].Create?
      ensures BirthOf(plan[k], kinds) == Some(Ref(KindOf(plan[k].messageType), plan[k].id))
    {
      var i := CreateInPlan(intents, born, k);
      assert i.WellFormed();
    }
  }

  lemma OwnBirthsAs(intents: seq<Intent>, born: Born, kind: Kind)
    requires AllWellFormed(intents) && forall i <- intents :: i.ref.kind == kind
    ensures BirthsAs(PlanOf(intents, born), kind) == CreatedBy(PlanOf(intents, born))
  {
    hide KindOfId, PlanOf, KindOf;
    var plan := PlanOf(intents, born);
    forall k | 0 <= k < |plan| && plan[k].Create?
      ensures plan[k].id != "" && KindOf(plan[k].messageType) == kind
    {
      var i := CreateInPlan(intents, born, k);
      assert i.WellFormed();
    }
  }

  // ---------- Triples ----------

  /** The triples are about one entity and stay inside a set of predicates. */
  predicate Within(triples: seq<Triple>, subject: string, predicates: set<Predicate>) {
    forall i :: 0 <= i < |triples| ==> triples[i].subject == subject && triples[i].predicate_ in predicates
  }

  lemma WithinAppend(a: seq<Triple>, b: seq<Triple>, subject: string, predicates: set<Predicate>)
    requires Within(a, subject, predicates) && Within(b, subject, predicates)
    ensures Within(a + b, subject, predicates)
  {}

  lemma NoEdges(triples: seq<Triple>, subject: string, predicates: set<Predicate>)
    requires Within(triples, subject, predicates) && TrackSource !in predicates
    ensures EdgeTargets(triples) == {} && TrackSource !in AsMap(triples)
  {
    KeysWithin(triples, subject, predicates);
  }

  lemma {:induction false} KeysWithin(triples: seq<Triple>, subject: string, predicates: set<Predicate>)
    requires Within(triples, subject, predicates)
    ensures AsMap(triples).Keys <= predicates
  {
    if triples != [] {
      KeysWithin(triples[..|triples| - 1], subject, predicates);
    }
  }

  /** A birth with one edge more than the update still includes the update. */
  lemma EdgeAddsToUpdate(triples: seq<Triple>, edge: Triple)
    requires edge.predicate_ !in AsMap(triples)
    ensures AsMap(triples + [edge]) + AsMap(triples) == AsMap(triples + [edge])
  {
    assert (triples + [edge])[..|triples|] == triples;
    assert (triples + [edge])[|triples|] == edge;
  }

  lemma OneEdge(triples: seq<Triple>, edge: Triple)
    requires EdgeTargets(triples) == {} && edge.predicate_ == TrackSource && edge.object_.Link?
    ensures EdgeTargets(triples + [edge]) == {edge.object_.target}
  {
    var all := triples + [edge];
    assert all[|triples|] == edge;
    assert forall i :: 0 <= i < |triples| && triples[i].predicate_ == TrackSource && triples[i].object_.Link? ==>
        triples[i].object_.target in EdgeTargets(triples);
    forall t | t in EdgeTargets(all)
      ensures t == edge.object_.target
    {
      var i :| 0 <= i < |all| && all[i].predicate_ == TrackSource && all[i].object_.Link? && all[i].object_.target == t;
      assert i < |triples| ==> triples[i] == all[i];
    }
  }

  lemma MarkedOfOne(r: Ref, id: string)
    ensures Marked([r], id) == if r.id == id then Some(r) else None
  {
    assert [r][1..] == [];
    assert Marked([], id) == None;
  }

  lemma MarkedFirst(r: Ref, rest: seq<Ref>, id: string)
    ensures Marked([r] + rest, id) == if r.id == id then Some(r) else Marked(rest, id)
  {
    assert ([r] + rest)[1..] == rest;
  }

  // ---------- Batches ----------

  lemma ConcatGrows(parts: seq<seq<Intent>>, i: nat, born: Born)
    requires i < |parts|
    ensures var before := Concat(parts[..i]);
      Concat(parts[..i + 1]) == before + parts[i]
      && PlanOf(Concat(parts[..i + 1]), born) == PlanOf(before, born) + PlanOf(parts[i], born + RefsOf(before))
      && born + RefsOf(Concat(parts[..i + 1])) == (born + RefsOf(before)) + RefsOf(parts[i])
  {
    hide PlanOf, RefsOf;
    assert parts[..i + 1][..i] == parts[..i];
    PlanOfAppend(Concat(parts[..i]), parts[i], born);
  }

  lemma ConcatStarts(parts: seq<seq<Intent>>, born: Born)
    ensures PlanOf(Concat(parts[..0]), born) == [] && born + RefsOf(Concat(parts[..0])) == born
  {
    NoIntents(born);
  }

  lemma NoBirthsYet(plan: Plan, kinds: map<string, Kind>, kind: Kind, born: Born)
    ensures born + Births(plan[..0], kinds) == born && born + BirthsAs(plan[..0], kind) == born
  {}

  lemma OneBirth(kind: Kind, ids: set<string>, m: Mutation)
    ensures var birth := BirthAs(m, kind);
      if birth.Some? && m.id !in ids
      then Plus(Tagged(kind, ids), birth) == Tagged(kind, ids + {m.id}) && |Tagged(kind, ids + {m.id})| == |Tagged(kind, ids)| + 1
      else Plus(Tagged(kind, ids), birth) == Tagged(kind, ids)
  {
    hide Tagged;
    TaggedAdds(kind, ids, m.id);
  }

  lemma NoBirth(m: Mutation, kinds: map<string, Kind>, born: Born)
    requires !m.Create?
    ensures Plus(born, BirthOf(m, kinds)) == born
  {}

  // ---------- Small jobs ----------

  lemma PlanOfOne(i: Intent, born: Born)
    ensures PlanOf([i], born) == Step(i, born)
    ensures RefsOf([i]) == {i.ref}
  {
    assert [i][1..] == [];
    assert PlanOf([], born + {i.ref}) == [];
    RefsOfHead([i]);
  }

  lemma PlanOfTwo(i: Intent, j: Intent, born: Born)
    ensures PlanOf([i, j], born) == Step(i, born) + Step(j, born + {i.ref})
    ensures RefsOf([i, j]) == {i.ref, j.ref}
  {
    assert [i, j][1..] == [j];
    PlanOfOne(j, born + {i.ref});
    RefsOfHead([i, j]);
  }

  /** A job about one entity without edges is valid once its markable entities name it. */
  lemma JobOfOne(i: Intent, markable: seq<Ref>)
    requires i.WellFormed() && Marked(markable, i.ref.id) == Some(i.ref)
    requires EdgeTargets(i.create.triples) == {} && (i.update.Some? ==> EdgeTargets(i.update.value.triples) == {})
    ensures Job([i], markable).Valid()
  {
    hide KindOfId, KindOf, EdgeTargets;
    PlanOfOne(i, {});
  }

  lemma JobOfNone(markable: seq<Ref>)
    ensures Job([], markable).Valid()
  {}

  /** So is a job about a track and the asset that its edge points at. */
  lemma JobOfTwo(asset: Intent, track: Intent, markable: seq<Ref>)
    requires asset.WellFormed() && track.WellFormed() && asset.ref.kind == Asset
    requires Marked(markable, asset.ref.id) == Some(asset.ref) && Marked(markable, track.ref.id) == Some(track.ref)
    requires asset.update.None? && EdgeTargets(asset.create.triples) == {}
    requires EdgeTargets(track.create.triples) == {asset.ref.id}
    requires track.update.Some? ==> EdgeTargets(track.update.value.triples) == {}
    ensures Job([asset, track], markable).Valid()
  {
    hide KindOfId, KindOf, EdgeTargets;
    PlanOfTwo(asset, track, {});
    var intents := [asset, track];
    forall k | 0 <= k < |intents|
      ensures forall t <- EdgeTargets(intents[k].create.triples) :: Ref(Asset, t) in RefsOf(intents[..k])
      ensures intents[k].update.Some? ==> EdgeTargets(intents[k].update.value.triples) == {}
    {
      if k == 1 {
        assert intents[..1] == [asset];
        PlanOfOne(asset, {});
      }
    }
  }

  // ---------- The two shapes of projections ----------

  /** The birth of the asset that a track's source edge needs; an asset is never updated. */
  function AssetBirth(id: string, triples: seq<Triple>): Intent {
    var k := SourceAssetContract();
    Intent(Ref(Asset, id), Create(id, k.messageType, triples, k.indexingProfile, k.owner), None)
  }

  /** A track whose birth, and only its birth, carries an edge to its source. */
  function SourcedTrack(id: string, k: Contract, triples: seq<Triple>, edge: Triple): Intent {
    Intent(
      Ref(Track, id),
      Create(id, k.messageType, triples + [edge], k.indexingProfile, k.owner),
      Some(Update(id, triples, k.indexingProfile, k.owner)))
  }

  /** An entity born and updated with the same triples. */
  function Lone(kind: Kind, id: string, k: Contract, triples: seq<Triple>): Intent {
    Intent(
      Ref(kind, id),
      Create(id, k.messageType, triples, k.indexingProfile, k.owner),
      Some(Update(id, triples, k.indexingProfile, k.owner)))
  }

  /** What a projector promises about every job it makes. */
  ghost predicate SoundJob(job: Job, entities: nat) {
    job.Valid() && CreateIncludesUpdate(job.intents) && |RefsOf(job.intents)| <= entities
    && (job.intents == [] || HasUpdate(job.intents))
  }

  lemma NoJob(markable: seq<Ref>, entities: nat)
    ensures SoundJob(Job([], markable), entities)
  {
    JobOfNone(markable);
    NoIntents({});
  }

  lemma LoneJob(kind: Kind, id: string, k: Contract, triples: seq<Triple>, markable: seq<Ref>)
    requires KindOf(k.messageType) == KindOfId(id) == kind && id != ""
    requires Within(triples, id, k.predicates) && TrackSource !in k.predicates
    requires Marked(markable, id) == Some(Ref(kind, id))
    ensures SoundJob(Job([Lone(kind, id, k, triples)], markable), 1)
  {
    hide KindOf, KindOfId, EdgeTargets, Job.Valid, AsMap, Within;
    var i := Lone(kind, id, k, triples);
    NoEdges(triples, id, k.predicates);
    JobOfOne(i, markable);
    PlanOfOne(i, {});
    assert AsMap(triples) + AsMap(triples) == AsMap(triples);
    assert [i][0].update.Some?;
  }

  lemma SourcedJob(
      assetId: string, assetTriples: seq<Triple>, trackId: string, k: Contract, triples: seq<Triple>, edge: Triple,
      markable: seq<Ref>)
    requires KindOfId(assetId) == Asset == KindOf(SourceAssetContract().messageType) && assetId != ""
    requires KindOf(k.messageType) == KindOfId(trackId) == Track && trackId != ""
    requires Within(assetTriples, assetId, SourceAssetContract().predicates)
    requires Within(triples, trackId, k.predicates) && TrackSource !in k.predicates
    requires edge.predicate_ == TrackSource && edge.object_ == Link(assetId)
    requires Marked(markable, assetId) == Some(Ref(Asset, assetId)) && Marked(markable, trackId) == Some(Ref(Track, trackId))
    ensures SoundJob(Job([AssetBirth(assetId, assetTriples), SourcedTrack(trackId, k, triples, edge)], markable), 2)
  {
    hide KindOf, KindOfId, EdgeTargets, Job.Valid, AsMap, Within;
    var asset, track := AssetBirth(assetId, assetTriples), SourcedTrack(trackId, k, triples, edge);
    NoEdges(triples, trackId, k.predicates);
    NoEdges(assetTriples, assetId, SourceAssetContract().predicates);
    OneEdge(triples, edge);
    EdgeAddsToUpdate(triples, edge);
    JobOfTwo(asset, track, markable);
    PlanOfTwo(asset, track, {});
    assert AsMap(assetTriples) + map[] == AsMap(assetTriples);
    assert [asset, track][1].update.Some?;
  }

  // ---------- What blocks them ----------

  lemma BlockedLone(i: Intent, born: Born, ids: set<string>)
    ensures Blocked([i], born, ids) == if i.ref !in born && i.ref.id in ids then {i.ref} else {}
  {
    assert [i][1..] == [];
    NothingBlocked(born + {i.ref}, ids);
  }

  /** Of an asset and its track: both if neither is known and the track is there, else the one that is. */
  lemma BlockedPair(asset: Intent, track: Intent, born: Born, ids: set<string>)
    requires asset.ref != track.ref
    ensures var (a, t) := (asset.ref, track.ref);
      Blocked([asset, track], born, ids) ==
        (if a !in born && (a.id in ids || (t !in born && t.id in ids)) then {a} else {})
        + (if t !in born && t.id in ids then {t} else {})
  {
    assert [asset, track][1..] == [track];
    BlockedLone(track, born + {asset.ref}, ids);
  }

  /** The triples are all about one entity and carry one source, time and confidence. */
  ghost predicate Signed(triples: seq<Triple>, subject: string, source: string, time: int, confidence: real) {
    forall i :: 0 <= i < |triples| ==>
      triples[i].subject == subject && triples[i].source == source
      && triples[i].timestamp == time && triples[i].confidence == confidence
  }

  ghost predicate SignedBy(m: Mutation, owner: string, profile: string, source: string, time: int, confidence: real) {
    m.owner == owner && m.profile == profile && Signed(m.triples, m.id, source, time, confidence)
  }

  // ---------- What a projection makes the graph say ----------

  ghost predicate Includes(p: Properties, said: Properties) {
    forall k <- said :: k in p && p[k] == said[k]
  }

  lemma {:induction false} AsMapAppend(a: seq<Triple>, b: seq<Triple>)
    ensures AsMap(a + b) == AsMap(a) + AsMap(b)
    decreases |b|
  {
    if b == [] {
      assert a + b == a;
      assert AsMap(a) + map[] == AsMap(a);
    } else {
      var init, last := b[..|b| - 1], b[|b| - 1];
      assert (a + b)[..|a + b| - 1] == a + init;
      AsMapAppend(a, init);
    }
  }

  /** What a list says, one triple after the other. */
  lemma AsMapStep(triples: seq<Triple>, n: nat)
    requires n < |triples|
    ensures AsMap(triples[..n + 1]) == AsMap(triples[..n])[triples[n].predicate_ := triples[n].object_]
    ensures triples[..|triples|] == triples
  {
    assert triples[..n + 1][..n] == triples[..n];
  }

  lemma AsMapIfSome(triples: seq<Triple>, condition: bool, t: Triple)
    ensures AsMap(triples + IfSome(condition, t)) == AsMap(triples) + if condition then map[t.predicate_ := t.object_] else map[]
  {
    assert triples + [] == triples && (triples + [t])[..|triples|] == triples;
    assert AsMap(triples) + map[] == AsMap(triples);
  }

  lemma NoTriples()
    ensures AsMap([]) == map[]
  {}

  /** A graph in which one entity has something more to say, or is born saying it. */
  function Saying(g: Graph, id: string, messageType: string, said: Properties, atBirth: Properties): Graph {
    g[id := if id in g then g[id].(properties := g[id].properties + said) else Entity(messageType, said + atBirth)]
  }

  /** A graph in which one entity is born, unless it is there. */
  function Bearing(g: Graph, id: string, messageType: string, said: Properties): Graph {
    if id in g then g else g[id := Entity(messageType, said)]
  }

  lemma LoneEffect(g: Graph, kind: Kind, id: string, k: Contract, triples: seq<Triple>)
    ensures Effect(g, [Lone(kind, id, k, triples)]) == Saying(g, id, k.messageType, AsMap(triples), map[])
  {
    hide AsMap;
    var i := Lone(kind, id, k, triples);
    assert [i][1..] == [];
    assert Effect(EffectOf(g, i), []) == EffectOf(g, i);
    assert AsMap(triples) + map[] == AsMap(triples);
  }

  lemma SourcedEffect(
      g: Graph, assetId: string, assetTriples: seq<Triple>, id: string, k: Contract, triples: seq<Triple>, edge: Triple)
    ensures Effect(g, [AssetBirth(assetId, assetTriples), SourcedTrack(id, k, triples, edge)])
         == Saying(Bearing(g, assetId, "semops.source.asset.v1", AsMap(assetTriples)), id, k.messageType, AsMap(triples),
                   map[edge.predicate_ := edge.object_])
  {
    hide AsMap;
    var asset, track := AssetBirth(assetId, assetTriples), SourcedTrack(id, k, triples, edge);
    assert [asset, track][1..] == [track];
    assert [track][1..] == [];
    var between := EffectOf(g, asset);
    assert Effect(EffectOf(between, track), []) == EffectOf(between, track);
    AsMapAppend(triples, [edge]);
    AsMapOfOne(edge);
  }

  lemma AsMapOfOne(t: Triple)
    ensures AsMap([t]) == map[t.predicate_ := t.object_]
  {
    assert [t][..0] == [];
  }
}
