/**
 From a snapshot to the graph: the states of a snapshot one after the other, so that the
 last state of an aircraft is what its track says once the snapshot is written.
 */
module AdsbEndToEnd {
  import opened Checksum
  import opened Cop
  import opened GraphService
  import opened BirthProtocol
  import opened AsIfOnce
  import opened Projection
  import opened Tokens
  import Q = AdsbProjector
  import A = AdsbAdapter

  // ---------- What a state says ----------

  function SourceName(source: Option<int>): string {
    match source
    case Some(0) => "ads-b"
    case Some(1) => "asterix"
    case Some(2) => "mlat"
    case Some(3) => "flarm"
    case _ => "unknown"
  }

  /** No more than the position source deserves; an unknown source at most one half. */
  function TrustIn(source: Option<int>, configured: real): real {
    match source
    case Some(0) => configured
    case Some(1) => if configured > 0.8 then 0.8 else configured
    case Some(2) => if configured > 0.75 then 0.75 else configured
    case Some(3) => if configured > 0.65 then 0.65 else configured
    case _ => if configured > 0.5 then 0.5 else configured
  }

  function TimeOf(s: Q.StateVector): nat {
    if s.timePosition.Some? then s.timePosition.value else s.lastContact
  }

  /** A signal to hundredths, or unknown. */
  function Shown(x: Option<real>): Option<real> {
    if x.Some? then Some(Hundredths(x.value)) else None
  }

  function TrackKey(c: Config, icao24: string): string {
    EntityToken(c.org) + "." + EntityToken(c.platform) + ".cop.adsb.track." + EntityToken(icao24)
  }

  function NativeName(s: Q.StateVector): string {
    "adsb.icao24." + EntityToken(s.icao24)
    + (if s.callsign.Some? then ".callsign." + EntityToken(s.callsign.value) else "")
    + ".source." + SourceName(s.positionSource)
  }

  function BaseSays(c: Config, s: Q.StateVector): Properties {
    map[TrackNativeId := Text(NativeName(s)),
        TrackStatus := Text(if s.onGround then "active.aircraft.ground" else "active.aircraft"),
        TrackObservedAt := Instant(TimeOf(s)),
        ProvenanceSource := Text("adsb"),
        ProvenanceConfidence := Number(TrustIn(s.positionSource, c.confidence)),
        ProvenanceObservedAt := Instant(TimeOf(s))]
  }

  /** A position needs both coordinates, longitude first; a motion at least one of its three parts. */
  function MotionSays(s: Q.StateVector): Properties {
    (if s.longitude.Some? && s.latitude.Some? then
       map[TrackPosition := Rendered("POINT", [Some(SevenDecimals(s.longitude.value)), Some(SevenDecimals(s.latitude.value))])]
     else map[])
    + if s.velocity.Some? || s.trueTrack.Some? || s.verticalRate.Some? then
        map[TrackVelocity := Rendered("AIR_MOTION_MPS", [Shown(s.velocity), Shown(s.trueTrack), Shown(s.verticalRate)])]
      else map[]
  }

  function StateSays(c: Config, s: Q.StateVector, sourceRef: string): Properties {
    BaseSays(c, s) + MotionSays(s) + if sourceRef != "" then map[ProvenanceSourceRef := Text(sourceRef)] else map[]
  }

  /** The graph after the states of a snapshot, one after the other. */
  function GraphWith(g: Graph, c: Config, states: seq<Q.StateVector>, sourceRef: string): Graph {
    if states == [] then g
    else
      var before, last := GraphWith(g, c, states[..|states| - 1], sourceRef), states[|states| - 1];
      Saying(before, TrackKey(c, last.icao24), "semops.adsb.track.v1", StateSays(c, last, sourceRef), map[])
  }

  // ---------- What the triples say ----------

  lemma BaseSpeaks(c: Config, s: Q.StateVector)
    ensures AsMap(Q.BaseTriples(c, s)) == BaseSays(c, s)
  {
    hide AsMap, Q.TrackId, EntityToken;
    NoTriples();
    var all := Q.BaseTriples(c, s);
    AsMapStep(all, 0);
    AsMapStep(all, 1);
    AsMapStep(all, 2);
    AsMapStep(all, 3);
    AsMapStep(all, 4);
    AsMapStep(all, 5);
  }

  lemma PositionIs(s: Q.StateVector)
    requires s.longitude.Some? && s.latitude.Some?
    ensures Q.WktPoint(s.latitude, s.longitude)
         == Rendered("POINT", [Some(SevenDecimals(s.longitude.value)), Some(SevenDecimals(s.latitude.value))])
  {
    hide SevenDecimals;
  }

  lemma MotionIs(s: Q.StateVector)
    ensures Q.AirMotion(s) == Rendered("AIR_MOTION_MPS", [Shown(s.velocity), Shown(s.trueTrack), Shown(s.verticalRate)])
  {
    hide Hundredths;
  }

  lemma StateSpeaks(c: Config, s: Q.SourceState)
    ensures AsMap(Q.TrackTriples(c, s)) == StateSays(c, s.state, s.sourceRef)
  {
    hide AsMap, IfSome, Q.TrackId, Q.BaseTriples, BaseSays, Q.ConfidenceFor, Q.ObservedAt, Q.WktPoint, Q.AirMotion, Shown, SevenDecimals;
    var v, t := s.state, Q.StampOf(c, s.state);
    var base := Q.BaseTriples(c, v);
    BaseSpeaks(c, v);
    if v.longitude.Some? && v.latitude.Some? {
      PositionIs(v);
    }
    MotionIs(v);
    var position, velocity := t.Say(TrackPosition, Q.WktPoint(v.latitude, v.longitude)), t.Say(TrackVelocity, Q.AirMotion(v));
    var isPlaced, moves := v.latitude.Some? && v.longitude.Some?, v.velocity.Some? || v.trueTrack.Some? || v.verticalRate.Some?;
    AsMapIfSome(base, isPlaced, position);
    AsMapIfSome(base + IfSome(isPlaced, position), moves, velocity);
    AsMapIfSome(base + IfSome(isPlaced, position) + IfSome(moves, velocity),
                s.sourceRef != "", t.Say(ProvenanceSourceRef, Text(s.sourceRef)));
    UnionAssociates(BaseSays(c, v), if isPlaced then map[TrackPosition := position.object_] else map[],
                    if moves then map[TrackVelocity := velocity.object_] else map[]);
  }

  lemma KeyIsWritten(c: Config, icao24: string)
    ensures Q.TrackId(c, icao24) == TrackKey(c, icao24)
  {
    hide Key, EntityToken, Join;
    KeyShape(EntityToken(c.org), EntityToken(c.platform), "adsb", ENTITY_TRACK, EntityToken(icao24));
  }

  // ---------- Into the graph ----------

  lemma {:induction false} EffectAppend(g: Graph, a: seq<Intent>, b: seq<Intent>)
    ensures Effect(g, a + b) == Effect(Effect(g, a), b)
    decreases |a|
  {
    hide EffectOf;
    if a == [] {
      assert a + b == b;
    } else {
      assert (a + b)[1..] == a[1..] + b;
      EffectAppend(EffectOf(g, a[0]), a[1..], b);
    }
  }

  lemma {:induction false} StatesAreShown(g: Graph, c: Config, states: seq<Q.StateVector>, sourceRef: string)
    ensures Effect(g, Q.JobOf(c, states, sourceRef).intents) == GraphWith(g, c, states, sourceRef)
    decreases |states|
  {
    hide Effect, AsMap, StateSays, Q.TrackId, TrackKey, Q.TrackTriples;
    var sources, intents := Q.SourceStates(states, sourceRef), Q.JobOf(c, states, sourceRef).intents;
    Q.ConcatOfOnes(c, sources);
    if states == [] {
      EffectOfNone(g, intents);
    } else {
      var n := |states| - 1;
      assert Q.SourceStates(states[..n], sourceRef) == sources[..n];
      Q.ConcatOfOnes(c, sources[..n]);
      StatesAreShown(g, c, states[..n], sourceRef);
      assert intents == Q.JobOf(c, states[..n], sourceRef).intents + [Q.TrackIntent(c, sources[n])];
      EffectAppend(g, Q.JobOf(c, states[..n], sourceRef).intents, [Q.TrackIntent(c, sources[n])]);
      StateSpeaks(c, sources[n]);
      KeyIsWritten(c, states[n].icao24);
      LoneEffect(GraphWith(g, c, states[..n], sourceRef), Track, Q.TrackId(c, states[n].icao24), AdsbTrackContract(),
                 Q.TrackTriples(c, sources[n]));
    }
  }

  /**
   Whatever retries and half-applied plans it took: once a snapshot is reported written, the
   graph is the one before with the states of the snapshot in it, one after the other.
   */
  lemma SnapshotIsShown(c: Config, states: seq<Q.StateVector>, sourceRef: string, born: Born, w: World)
    requires w.Honest() && BornIn(born, w.graph.Keys)
    ensures var o := WriteJob(Q.JobOf(c, states, sourceRef), A.ATTEMPTS, born, w);
      o.status.Written? ==> o.world.graph == GraphWith(w.graph, c, states, sourceRef)
  {
    hide WriteJob, Effect, GraphWith, BornIn, Q.JobOf;
    A.WrittenIsAsIfOnce(c, states, sourceRef, born, w);
    StatesAreShown(w.graph, c, states, sourceRef);
  }

  /** So the track of every aircraft says what the last state of that aircraft in the snapshot said. */
  lemma LastStateIsShown(c: Config, states: seq<Q.StateVector>, sourceRef: string, i: nat, born: Born, w: World)
    requires i < |states| && w.Honest() && BornIn(born, w.graph.Keys)
    requires forall j :: i < j < |states| ==> TrackKey(c, states[j].icao24) != TrackKey(c, states[i].icao24)
    ensures var o := WriteJob(Q.JobOf(c, states, sourceRef), A.ATTEMPTS, born, w);
      var id := TrackKey(c, states[i].icao24);
      o.status.Written? ==> id in o.world.graph && Includes(o.world.graph[id].properties, StateSays(c, states[i], sourceRef))
  {
    hide WriteJob, GraphWith, BornIn, Q.JobOf, TrackKey, StateSays;
    SnapshotIsShown(c, states, sourceRef, born, w);
    LastIsIncluded(w.graph, c, states, sourceRef, i);
  }

  lemma {:induction false} LastIsIncluded(g: Graph, c: Config, states: seq<Q.StateVector>, sourceRef: string, i: nat)
    requires i < |states|
    requires forall j :: i < j < |states| ==> TrackKey(c, states[j].icao24) != TrackKey(c, states[i].icao24)
    ensures var (after, id) := (GraphWith(g, c, states, sourceRef), TrackKey(c, states[i].icao24));
      id in after && Includes(after[id].properties, StateSays(c, states[i], sourceRef))
    decreases |states|
  {
    hide TrackKey, StateSays;
    var n := |states| - 1;
    if i < n {
      LastIsIncluded(g, c, states[..n], sourceRef, i);
    }
  }

  // ---------- Who says it ----------

  lemma BaseIsSigned(c: Config, s: Q.StateVector)
    ensures Signed(Q.BaseTriples(c, s), Q.TrackId(c, s.icao24), "adsb", TimeOf(s), TrustIn(s.positionSource, c.confidence))
  {
    hide Q.TrackId, Q.NativeId;
  }

  lemma TrackIsSigned(c: Config, s: Q.SourceState)
    ensures Signed(Q.TrackTriples(c, s), Q.TrackId(c, s.state.icao24), "adsb", TimeOf(s.state),
                   TrustIn(s.state.positionSource, c.confidence))
  {
    hide Q.TrackId, Q.WktPoint, Q.AirMotion, Q.BaseTriples, TrustIn, Q.ConfidenceFor;
    TrustIs(c, s.state);
    BaseIsSigned(c, s.state);
  }

  lemma TrustIs(c: Config, s: Q.StateVector)
    ensures Q.ConfidenceFor(c, s) == TrustIn(s.positionSource, c.confidence) && Q.ObservedAt(s) == TimeOf(s)
  {}

  /** Every mutation of a state is signed by the feed, with the time and the trust of the state in every triple. */
  lemma StateIsSigned(c: Config, s: Q.SourceState, born: Born)
    ensures forall m <- PlanOf([Q.TrackIntent(c, s)], born) ::
      m.id == TrackKey(c, s.state.icao24)
      && SignedBy(m, "semops.feed.adsb", "signal", "adsb", TimeOf(s.state), TrustIn(s.state.positionSource, c.confidence))
  {
    hide PlanOf, Q.TrackId, TrackKey, Q.TrackTriples, TrustIn;
    KeyIsWritten(c, s.state.icao24);
    TrackIsSigned(c, s);
    PlanElements([Q.TrackIntent(c, s)], born);
  }
}
