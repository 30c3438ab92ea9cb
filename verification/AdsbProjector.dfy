/**
 ADS-B state vectors to graph mutations (internal/projectors/adsb/projector.go): one track
 per aircraft, a whole snapshot in one plan.
 */
module AdsbProjector {
  import opened Checksum
  import opened Cop
  import opened GraphService
  import opened BirthProtocol
  import opened AsIfOnce
  import opened Projection
  import opened Tokens

  const DEFAULT_CONFIDENCE := 0.85

  const SOURCE_ADSB := 0
  const SOURCE_ASTERIX := 1
  const SOURCE_MLAT := 2
  const SOURCE_FLARM := 3

  /** The part of a state vector that is projected; a zero contact time is an unset one. */
  datatype StateVector = StateVector(
    icao24: string, callsign: Option<string>,
    timePosition: Option<nat>, lastContact: nat,
    longitude: Option<real>, latitude: Option<real>, onGround: bool,
    velocity: Option<real>, trueTrack: Option<real>, verticalRate: Option<real>,
    positionSource: Option<int>)

  datatype SourceState = SourceState(state: StateVector, sourceRef: string) {
    predicate Valid() {
      TrimSpace(state.icao24) != "" && state.lastContact != 0
    }
  }

  function Min(a: real, b: real): real {
    if a <= b then a else b
  }

  function ConfidenceFor(c: Config, s: StateVector): real {
    if s.positionSource.None? then Min(c.confidence, 0.5)
    else if s.positionSource.value == SOURCE_ADSB then c.confidence
    else if s.positionSource.value == SOURCE_ASTERIX then Min(c.confidence, 0.8)
    else if s.positionSource.value == SOURCE_MLAT then Min(c.confidence, 0.75)
    else if s.positionSource.value == SOURCE_FLARM then Min(c.confidence, 0.65)
    else Min(c.confidence, 0.5)
  }

  function SourceLabel(s: StateVector): string {
    if s.positionSource == Some(SOURCE_ADSB) then "ads-b"
    else if s.positionSource == Some(SOURCE_ASTERIX) then "asterix"
    else if s.positionSource == Some(SOURCE_MLAT) then "mlat"
    else if s.positionSource == Some(SOURCE_FLARM) then "flarm"
    else "unknown"
  }

  function ObservedAt(s: StateVector): nat {
    if s.timePosition.Some? then s.timePosition.value else s.lastContact
  }

  function NativeId(s: StateVector): string {
    "adsb.icao24." + EntityToken(s.icao24)
    + (if s.callsign.Some? then ".callsign." + EntityToken(s.callsign.value) else "")
    + ".source." + SourceLabel(s)
  }

  function TrackId(c: Config, icao24: string): string {
    Key(EntityToken(c.org), EntityToken(c.platform), "adsb", ENTITY_TRACK, EntityToken(icao24))
  }

  function WktPoint(lat: Option<real>, lon: Option<real>): Value {
    Rendered("POINT", [Mapped(lon, SevenDecimals), Mapped(lat, SevenDecimals)])
  }

  function Mapped(x: Option<real>, f: real -> real): Option<real> {
    if x.Some? then Some(f(x.value)) else None
  }

  /** Velocity, track and vertical rate, each rounded if it is known. */
  function AirMotion(s: StateVector): Value {
    Rendered("AIR_MOTION_MPS", [Mapped(s.velocity, Hundredths), Mapped(s.trueTrack, Hundredths), Mapped(s.verticalRate, Hundredths)])
  }

  // ---------- Triples and intents ----------

  function StampOf(c: Config, s: StateVector): Stamp {
    Stamp(TrackId(c, s.icao24), "adsb", ObservedAt(s), ConfidenceFor(c, s))
  }

  function BaseTriples(c: Config, s: StateVector): seq<Triple> {
    var t := StampOf(c, s);
    [t.Say(TrackNativeId, Text(NativeId(s))),
     t.Say(TrackStatus, Text(if s.onGround then "active.aircraft.ground" else "active.aircraft")),
     t.Say(TrackObservedAt, Instant(ObservedAt(s))),
     t.Say(ProvenanceSource, Text("adsb")),
     t.Say(ProvenanceConfidence, Number(ConfidenceFor(c, s))),
     t.Say(ProvenanceObservedAt, Instant(ObservedAt(s)))]
  }

  function TrackTriples(c: Config, source: SourceState): seq<Triple> {
    var s := source.state;
    var t := StampOf(c, s);
    BaseTriples(c, s)
    + IfSome(s.latitude.Some? && s.longitude.Some?, t.Say(TrackPosition, WktPoint(s.latitude, s.longitude)))
    + IfSome(s.velocity.Some? || s.trueTrack.Some? || s.verticalRate.Some?,
             t.Say(TrackVelocity, AirMotion(s)))
    + IfSome(source.sourceRef != "", t.Say(ProvenanceSourceRef, Text(source.sourceRef)))
  }

  function TrackIntent(c: Config, source: SourceState): Intent {
    Lone(Track, TrackId(c, source.state.icao24), AdsbTrackContract(), TrackTriples(c, source))
  }

  function PartsOf(c: Config, states: seq<SourceState>): seq<seq<Intent>> {
    seq(|states|, i requires 0 <= i < |states| => [TrackIntent(c, states[i])])
  }

  predicate AllValid(states: seq<SourceState>) {
    forall i :: 0 <= i < |states| ==> states[i].Valid()
  }

  /** The entities whose births the states of a snapshot can teach. */
  function Markable(c: Config, states: seq<StateVector>): seq<Ref> {
    seq(|states|, i requires 0 <= i < |states| => Ref(Track, TrackId(c, states[i].icao24)))
  }

  /** The states of a snapshot with the reference of its raw record (sourceStates of the adapter). */
  function SourceStates(states: seq<StateVector>, sourceRef: string): seq<SourceState> {
    seq(|states|, i requires 0 <= i < |states| => SourceState(states[i], sourceRef))
  }

  function JobOf(c: Config, states: seq<StateVector>, sourceRef: string): Job {
    Job(Concat(PartsOf(c, SourceStates(states, sourceRef))), Markable(c, states))
  }

  class Projector {
    const config: Config
    var bornTracks: set<string>

    ghost function Born(): Born
      reads this
    {
      Tagged(Track, bornTracks)
    }

    constructor (config: Config)
      ensures this.config == WithDefaults(config, 0.85) && Born() == {}
    {
      var completed := config;
      if completed.org == "" {
        completed := completed.(org := "c360");
      }
      if completed.platform == "" {
        completed := completed.(platform := "edge");
      }
      if completed.confidence == 0.0 {
        completed := completed.(confidence := DEFAULT_CONFIDENCE);
      }
      this.config := completed;
      bornTracks := {};
    }

    /** The plan for one state, or none if the state is invalid. */
    method ProjectState(state: StateVector, sourceRef: string) returns (plan: Option<Plan>)
      ensures var s := SourceState(state, sourceRef);
        plan == if s.Valid() then Some(PlanOf([TrackIntent(config, s)], Born())) else None
    {
      hide TrackIntent;
      var tracks;
      plan, tracks := ProjectWith(SourceState(state, sourceRef), bornTracks);
    }

    method ProjectStates(states: seq<SourceState>) returns (plan: Option<Plan>)
      ensures plan == if AllValid(states) then Some(PlanOf(Concat(PartsOf(config, states)), Born())) else None
    {
      hide TrackIntent, PlanOf, RefsOf, Concat, SourceState.Valid, Tagged;
      ghost var parts := PartsOf(config, states);
      var tracks := bornTracks;
      var mutations := [];
      ConcatStarts(parts, Born());
      for i := 0 to |states|
        invariant forall k :: 0 <= k < i ==> states[k].Valid()
        invariant mutations == PlanOf(Concat(parts[..i]), Born())
        invariant Tagged(Track, tracks) == Born() + RefsOf(Concat(parts[..i]))
      {
        ConcatGrows(parts, i, Born());
        var next;
        next, tracks := ProjectWith(states[i], tracks);
        if next.None? {
          return None;
        }
        mutations := mutations + next.value;
      }
      assert parts[..|states|] == parts;
      plan := Some(mutations);
    }

    /** projectState: the plan for one state, and the local born set after it. */
    method ProjectWith(source: SourceState, bornTracks: set<string>) returns (plan: Option<Plan>, tracks: set<string>)
      ensures plan == if source.Valid() then Some(PlanOf([TrackIntent(config, source)], Tagged(Track, bornTracks))) else None
      ensures plan.Some? ==> Tagged(Track, tracks) == Tagged(Track, bornTracks) + RefsOf([TrackIntent(config, source)])
    {
      hide PlanOf, RefsOf, Tagged, TrackTriples, TrackId, TrimSpace;
      tracks := bornTracks;
      if TrimSpace(source.state.icao24) == "" {
        return None, tracks;
      }
      if source.state.lastContact == 0 {
        return None, tracks;
      }
      var trackId := TrackId(config, source.state.icao24);
      var triples := TrackTriples(config, source);
      PlanOfOne(TrackIntent(config, source), Tagged(Track, bornTracks));
      TaggedAdds(Track, bornTracks, trackId);
      if trackId !in tracks {
        tracks := tracks + {trackId};
        return Some([Create(trackId, AdsbTrackContract().messageType, triples, AdsbTrackContract().indexingProfile, OWNER_ADSB)]), tracks;
      }
      return Some([Update(trackId, triples, AdsbTrackContract().indexingProfile, OWNER_ADSB)]), tracks;
    }

    method MarkBornForPlan(plan: Plan) returns (marked: nat)
      modifies this
      ensures Born() == old(Born()) + BirthsAs(plan, Track)
      ensures marked == |Born()| - |old(Born())|
    {
      hide BirthsAs, Tagged, Plus;
      NoBirthsYet(plan, map[], Track, Born());
      marked := 0;
      for i := 0 to |plan|
        invariant Born() == old(Born()) + BirthsAs(plan[..i], Track)
        invariant marked == |Born()| - |old(Born())|
      {
        BirthsAsGrow(plan, Track, i);
        PlusMoves(old(Born()), BirthsAs(plan[..i], Track), BirthAs(plan[i], Track));
        OneBirth(Track, bornTracks, plan[i]);
        if !plan[i].Create? || plan[i].id == "" {
          continue;
        }
        if plan[i].id in bornTracks {
          continue;
        }
        bornTracks := bornTracks + {plan[i].id};
        marked := marked + 1;
      }
      assert plan[..|plan|] == plan;
    }

    method MarkBornForState(state: StateVector, entityId: string) returns (known: bool)
      modifies this
      ensures known == (entityId == TrackId(config, state.icao24))
      ensures Born() == Plus(old(Born()), if known then Some(Ref(Track, entityId)) else None)
    {
      hide TrackId, Tagged, KindOfId;
      TrackIdKind(config, state.icao24);
      TaggedAdds(Track, bornTracks, entityId);
      if entityId == "" || entityId != TrackId(config, state.icao24) {
        return false;
      }
      bornTracks := bornTracks + {entityId};
      return true;
    }
  }

  // ---------- Facts behind the methods ----------

  lemma TrackIdKind(c: Config, icao24: string)
    ensures KindOfId(TrackId(c, icao24)) == Track && TrackId(c, icao24) != ""
  {
    hide Key, TypeOfId, EntityToken;
    EntityTokenIsToken(icao24);
    TypeOfKey(EntityToken(c.org), EntityToken(c.platform), "adsb", ENTITY_TRACK, EntityToken(icao24));
  }

  /** Two addresses share a track exactly when they have the same token. */
  lemma AircraftShareExactly(c: Config, a: string, b: string)
    ensures TrackId(c, a) == TrackId(c, b) <==> EntityToken(a) == EntityToken(b)
  {
    hide Key, EntityToken;
    SameKeySameInstance(EntityToken(c.org), EntityToken(c.platform), "adsb", ENTITY_TRACK, EntityToken(a), EntityToken(b));
  }

  lemma TrackKind()
    ensures KindOf(AdsbTrackContract().messageType) == Track
  {
    assert AdsbTrackContract().messageType[7] == 'a' && SourceAssetContract().messageType[7] == 's';
  }

  // ---------- The jobs are sound ----------

  lemma TrackTriplesStayOwned(c: Config, s: SourceState)
    ensures Within(TrackTriples(c, s), TrackId(c, s.state.icao24), AdsbTrackContract().predicates)
  {
    hide TrackId, NativeId, ConfidenceFor;
  }

  lemma IntentIsWellFormed(c: Config, s: SourceState)
    ensures TrackIntent(c, s).WellFormed() && TrackIntent(c, s).ref.kind == Track
    ensures EdgeTargets(TrackIntent(c, s).create.triples) == {} == EdgeTargets(TrackIntent(c, s).update.value.triples)
  {
    hide TrackId, TrackTriples, KindOf, KindOfId, Within, EdgeTargets;
    TrackIdKind(c, s.state.icao24);
    TrackKind();
    TrackTriplesStayOwned(c, s);
    NoEdges(TrackTriples(c, s), TrackId(c, s.state.icao24), AdsbTrackContract().predicates);
  }

  /** The intents of a snapshot are those of its states, in order. */
  lemma {:induction false} ConcatOfOnes(c: Config, states: seq<SourceState>)
    ensures var intents := Concat(PartsOf(c, states));
      |intents| == |states| && forall i :: 0 <= i < |states| ==> intents[i] == TrackIntent(c, states[i])
    decreases |states|
  {
    hide TrackIntent;
    if states != [] {
      var n := |states| - 1;
      assert PartsOf(c, states)[..n] == PartsOf(c, states[..n]);
      ConcatOfOnes(c, states[..n]);
    }
  }

  lemma {:induction false} MarkedAmongTracks(refs: seq<Ref>, i: nat)
    requires i < |refs| && forall k :: 0 <= k < |refs| ==> refs[k].kind == Track
    ensures Marked(refs, refs[i].id) == Some(refs[i])
    decreases |refs|
  {
    if refs[0].id != refs[i].id {
      MarkedAmongTracks(refs[1..], i - 1);
    } else {
      assert refs[0] == refs[i];
    }
  }

  /** The job of a snapshot is sound, with at most one entity per state. */
  lemma JobIsSound(c: Config, states: seq<StateVector>, sourceRef: string)
    ensures SoundJob(JobOf(c, states, sourceRef), |states|)
    ensures forall i <- JobOf(c, states, sourceRef).intents :: i.ref.kind == Track && i.update.Some?
  {
    hide TrackTriples, TrackId, KindOf, KindOfId, EdgeTargets, Concat, PartsOf, RefsOf, AsMap;
    var job := JobOf(c, states, sourceRef);
    var sources := SourceStates(states, sourceRef);
    ConcatOfOnes(c, sources);
    forall i | 0 <= i < |states|
      ensures job.intents[i].WellFormed() && job.intents[i].ref == job.markable[i] && job.intents[i].ref.kind == Track
      ensures EdgeTargets(job.intents[i].create.triples) == {} == EdgeTargets(job.intents[i].update.value.triples)
      ensures AsMap(job.intents[i].create.triples) + Updates(job.intents[i]) == AsMap(job.intents[i].create.triples)
    {
      IntentIsWellFormed(c, sources[i]);
    }
    RefsAreMarked(job);
    RefsAreFew(job.intents);
    if states != [] {
      assert job.intents[0].update.Some?;
    }
  }

  lemma RefsAreMarked(job: Job)
    requires |job.intents| == |job.markable|
    requires forall i :: 0 <= i < |job.intents| ==> job.intents[i].ref == job.markable[i] && job.intents[i].ref.kind == Track
    ensures forall r <- RefsOf(job.intents) :: Marked(job.markable, r.id) == Some(r)
  {
    hide Marked;
    forall r | r in RefsOf(job.intents)
      ensures Marked(job.markable, r.id) == Some(r)
    {
      var i :| 0 <= i < |job.intents| && job.intents[i].ref == r;
      MarkedAmongTracks(job.markable, i);
    }
  }

  lemma {:induction false} RefsAreFew(intents: seq<Intent>)
    ensures |RefsOf(intents)| <= |intents|
  {
    if intents == [] {
      assert RefsOf(intents) == {};
    } else {
      RefsOfHead(intents);
      RefsAreFew(intents[1..]);
    }
  }

  /** ProjectStates gives the plans of single states with MarkBornForPlan after each, and creates nothing twice. */
  lemma BatchIsSequential(c: Config, states: seq<SourceState>, born: Born)
    ensures FaithfulBatch(PartsOf(c, states), born)
  {
    hide TrackIntent, FaithfulBatch, Intent.WellFormed;
    forall i | 0 <= i < |states|
      ensures AllWellFormed([TrackIntent(c, states[i])])
    {
      IntentIsWellFormed(c, states[i]);
    }
    BatchIsFaithful(PartsOf(c, states), born);
  }
}
