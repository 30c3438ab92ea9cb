/**
 From a TAK client to the graph: what an event says when it is sent is what its track, task
 or advisory says once it has been written as XML, read, projected and written to the graph.
 */
module TakEndToEnd {
  import opened Checksum
  import opened Cop
  import opened GraphService
  import opened BirthProtocol
  import opened AsIfOnce
  import opened Projection
  import opened Tokens
  import C = Cot
  import Q = CotProjector
  import A = CotAdapter

  // ---------- What an event is for ----------

  datatype Purpose = Chat | Marker | Operator | Aircraft | Other

  /** CoT types are paths of letters; their first steps decide. */
  function PurposeOf(kind: string): Purpose {
    if "b-t-f" <= kind then Chat
    else if "u-d-p" <= kind || "b-m-p" <= kind then Marker
    else if "a-f-A" <= kind || "a-h-A" <= kind then Aircraft
    else if "a-f-G" <= kind || "a-h-G" <= kind then Operator
    else Other
  }

  function FirstOf(a: string, b: string): string {
    if TrimSpace(a) != "" then TrimSpace(a) else TrimSpace(b)
  }

  /** What the projector goes by; a motion is a course in degrees and a speed. */
  datatype View = View(
    purpose: Purpose, uid: string, callsign: string, time: nat, isStale: bool,
    point: Option<C.Point>, motion: Option<(real, real)>, remarks: string, words: string, sender: string)

  /** An event as it stands. */
  function ViewOf(e: C.Event, clock: nat): View {
    var time := if e.time != 0 then e.time else clock;
    View(PurposeOf(e.kind), TrimSpace(e.uid), TrimSpace(e.callsign), time, e.stale != 0 && time > e.stale,
         e.point, if e.hasTrack then Some((e.courseDeg, e.speedMps)) else None,
         TrimSpace(e.remarks), FirstOf(e.chatText, e.remarks), FirstOf(e.senderUid, e.callsign))
  }

  /** The same event after it was sent: chat text fills in for remarks, and the sender travels with chat text only. */
  function ViewOfSent(e: C.Event, clock: nat): View {
    var v := ViewOf(e, clock);
    v.(purpose := PurposeOf(TrimSpace(e.kind)),
       remarks := FirstOf(e.remarks, e.chatText),
       sender := if TrimSpace(e.chatText) != "" then v.sender else TrimSpace(e.callsign))
  }

  // ---------- What the graph says afterwards ----------

  function EntityKey(c: Config, entityType: string, uid: string): string {
    (if c.org == "" then "c360" else c.org) + "." + (if c.platform == "" then "edge" else c.platform)
    + ".cop.tak." + entityType + "." + EntityToken(uid)
  }

  function Provenance(c: Config, time: nat, sourceRef: string): Properties {
    map[ProvenanceSource := Text("tak-cot"), ProvenanceConfidence := Number(c.confidence), ProvenanceObservedAt := Instant(time)]
    + if sourceRef != "" then map[ProvenanceSourceRef := Text(sourceRef)] else map[]
  }

  /** A position, longitude first. */
  function Located(at: Predicate, point: Option<C.Point>): Properties {
    if point.None? then map[]
    else map[at := Rendered("POINT", [Some(SevenDecimals(point.value.lon)), Some(SevenDecimals(point.value.lat))])]
  }

  function Moving(motion: Option<(real, real)>): Properties {
    if motion.None? then map[]
    else map[TrackVelocity := Rendered("COURSE_SPEED_MPS", [Some(Hundredths(motion.value.0)), Some(Hundredths(motion.value.1))])]
  }

  function Status(v: View, what: string): Value {
    Text((if v.isStale then "stale" else "active") + "." + what)
  }

  function TrackSays(c: Config, v: View, sourceRef: string): Properties {
    Provenance(c, v.time, sourceRef)
    + map[TrackNativeId := Text("cot.uid." + v.uid), TrackObservedAt := Instant(v.time),
          TrackStatus := Status(v, if v.purpose == Aircraft then "air-track" else "operator")]
    + Located(TrackPosition, v.point) + Moving(v.motion)
  }

  function AssetSays(c: Config, v: View, sourceRef: string): Properties {
    Provenance(c, v.time, sourceRef)
    + map[AssetName := Text(if v.callsign != "" then v.callsign else v.uid), AssetKind := Text("tak-cot-source"),
          AssetSource := Text("tak-cot"), AssetNativeId := Text("cot.uid." + v.uid)]
  }

  function TaskSays(c: Config, v: View, sourceRef: string): Properties {
    Provenance(c, v.time, sourceRef)
    + map[TaskNativeId := Text("cot.uid." + v.uid), TaskName := Text(if v.callsign != "" then v.callsign else v.uid),
          TaskKind := Text("marker"), TaskStatus := Status(v, "marker")]
    + Located(TaskPosition, v.point)
    + if v.remarks != "" then map[TaskDescription := Text(v.remarks)] else map[]
  }

  function AdvisorySays(c: Config, v: View, sourceRef: string): Properties {
    Provenance(c, v.time, sourceRef)
    + map[AdvisoryNativeId := Text("cot.uid." + v.uid), AdvisoryText := Text(v.words),
          AdvisoryKind := Text("geochat"), AdvisoryStatus := Status(v, "geochat")]
    + (if v.sender != "" then map[AdvisorySender := Text(v.sender)] else map[])
    + Located(AdvisoryPosition, v.point)
  }

  /** The graph with one event in it: nothing else has changed, and nothing at all if the event has nothing to show. */
  function GraphWith(g: Graph, c: Config, v: View, sourceRef: string): Graph {
    match v.purpose
    case Chat =>
      if v.words == "" then g
      else Saying(g, EntityKey(c, "advisory", v.uid), "semops.tak.advisory.v1", AdvisorySays(c, v, sourceRef), map[])
    case Marker =>
      if v.point.None? && v.callsign == "" && v.remarks == "" then g
      else Saying(g, EntityKey(c, "task", v.uid), "semops.tak.task.v1", TaskSays(c, v, sourceRef), map[])
    case Other => g
    case _ =>
      if v.point.None? && v.motion.None? then g
      else
        var assetId := EntityKey(c, "asset", v.uid);
        var withAsset := Bearing(g, assetId, "semops.source.asset.v1", AssetSays(c, v, sourceRef));
        Saying(withAsset, EntityKey(c, "track", v.uid), "semops.tak.track.v1", TrackSays(c, v, sourceRef),
               map[TrackSource := Link(assetId)])
  }

  // ---------- What the triples say ----------

  lemma FirstTrimmed(a: string, b: string)
    ensures FirstNonEmpty([a, b]) == FirstOf(a, b)
  {
    hide TrimSpace;
    TrimOfEmpty();
    assert [a, b][1..] == [b];
    assert [b][1..] == [];
    assert FirstNonEmpty([]) == "";
    assert FirstNonEmpty([b]) == TrimSpace(b);
  }

  lemma ProvenanceIsSaid(c: Config, s: Q.SourceEvent, subject: string)
    ensures AsMap(Q.ProvenanceTriples(c, s, subject)) == Provenance(c, ViewOf(s.event, s.clock).time, s.sourceRef)
  {
    hide AsMap, IfSome, TrimSpace, PurposeOf, FirstOf;
    NoTriples();
    var all, t := Q.ProvenanceTriples(c, s, subject), Q.StampOf(c, s, subject);
    var first := all[..3];
    assert all == first + IfSome(s.sourceRef != "", t.Say(ProvenanceSourceRef, Text(s.sourceRef)));
    AsMapIfSome(first, s.sourceRef != "", t.Say(ProvenanceSourceRef, Text(s.sourceRef)));
    AsMapStep(first, 0);
    AsMapStep(first, 1);
    AsMapStep(first, 2);
  }

  lemma PointIsSaid(t: Stamp, at: Predicate, point: Option<C.Point>)
    ensures AsMap(Q.PointTriple(t, at, point)) == Located(at, point)
  {
    NoTriples();
    if point.Some? {
      AsMapOfOne(t.Say(at, Q.WktPoint(point.value)));
    }
  }

  lemma TriplesOfThree(triples: seq<Triple>)
    requires |triples| == 3
    ensures AsMap(triples) == map[triples[0].predicate_ := triples[0].object_][triples[1].predicate_ := triples[1].object_]
                                 [triples[2].predicate_ := triples[2].object_]
  {
    hide AsMap;
    NoTriples();
    AsMapStep(triples, 0);
    AsMapStep(triples, 1);
    AsMapStep(triples, 2);
  }

  lemma TriplesOfFour(triples: seq<Triple>)
    requires |triples| == 4
    ensures AsMap(triples) == map[triples[0].predicate_ := triples[0].object_][triples[1].predicate_ := triples[1].object_]
                                 [triples[2].predicate_ := triples[2].object_][triples[3].predicate_ := triples[3].object_]
  {
    hide AsMap;
    TriplesOfThree(triples[..3]);
    AsMapStep(triples, 3);
  }

  lemma StatusIs(s: Q.SourceEvent, what: string)
    requires what != ""
    ensures Text(Q.StatusFor(s, what)) == Status(ViewOf(s.event, s.clock), what)
  {
    hide TrimSpace, PurposeOf, FirstOf;
  }
  lemma TrackSpeaks(c: Config, s: Q.SourceEvent)
    requires PurposeOf(s.event.kind) in {Operator, Aircraft} && (s.event.point.Some? || s.event.hasTrack)
    ensures Q.TrackTriples(c, s) != []
    ensures AsMap(Q.TrackTriples(c, s)) == TrackSays(c, ViewOf(s.event, s.clock), s.sourceRef)
  {
    hide AsMap, TrimSpace, FirstOf, Q.EntityId, Q.StatusFor, Status, IfSome, Q.PointTriple, Located, Provenance, Q.ProvenanceTriples,
      Hundredths;
    var e, t, v := s.event, Q.StampOf(c, s, Q.TrackId(c, s.event.uid)), ViewOf(s.event, s.clock);
    var own := [t.Say(TrackNativeId, Text(Q.NativeId(e.uid))), t.Say(TrackObservedAt, Instant(Q.ObservedAt(s))),
                t.Say(TrackStatus, Text(Q.StatusFor(s, Q.TrackKind(e))))];
    var first := Q.ProvenanceTriples(c, s, t.subject) + own;
    var located := first + Q.PointTriple(t, TrackPosition, e.point);
    assert Q.TrackTriples(c, s) == located + IfSome(e.hasTrack, t.Say(TrackVelocity, Q.CourseSpeed(e)));
    AsMapIfSome(located, e.hasTrack, t.Say(TrackVelocity, Q.CourseSpeed(e)));
    AsMapAppend(first, Q.PointTriple(t, TrackPosition, e.point));
    PointIsSaid(t, TrackPosition, e.point);
    AsMapAppend(Q.ProvenanceTriples(c, s, t.subject), own);
    ProvenanceIsSaid(c, s, t.subject);
    TriplesOfThree(own);
    StatusIs(s, Q.TrackKind(e));
  }

  lemma AssetSpeaks(c: Config, s: Q.SourceEvent)
    ensures AsMap(Q.SourceAssetTriples(c, s)) == AssetSays(c, ViewOf(s.event, s.clock), s.sourceRef)
  {
    hide AsMap, TrimSpace, Q.EntityId, Provenance, Q.ProvenanceTriples, PurposeOf, FirstNonEmpty;
    var e, t := s.event, Q.StampOf(c, s, Q.SourceAssetId(c, s.event.uid));
    FirstTrimmed(e.callsign, e.uid);
    var own := [t.Say(AssetName, Text(FirstNonEmpty([e.callsign, e.uid]))), t.Say(AssetKind, Text("tak-cot-source")),
                t.Say(AssetSource, Text("tak-cot")), t.Say(AssetNativeId, Text(Q.NativeId(e.uid)))];
    AsMapAppend(Q.ProvenanceTriples(c, s, t.subject), own);
    ProvenanceIsSaid(c, s, t.subject);
    TriplesOfFour(own);
  }

  lemma TaskSpeaks(c: Config, s: Q.SourceEvent)
    ensures var v := ViewOf(s.event, s.clock);
      if v.point.None? && v.callsign == "" && v.remarks == "" then Q.TaskTriples(c, s) == []
      else Q.TaskTriples(c, s) != [] && AsMap(Q.TaskTriples(c, s)) == TaskSays(c, v, s.sourceRef)
  {
    hide AsMap, TrimSpace, Q.EntityId, Q.StatusFor, Status, IfSome, Q.PointTriple, Located, Provenance, Q.ProvenanceTriples,
      PurposeOf, FirstNonEmpty;
    var e, t, v := s.event, Q.StampOf(c, s, Q.TaskId(c, s.event.uid)), ViewOf(s.event, s.clock);
    if v.point.Some? || v.callsign != "" || v.remarks != "" {
      FirstTrimmed(e.callsign, e.uid);
      var own := [t.Say(TaskNativeId, Text(Q.NativeId(e.uid))), t.Say(TaskName, Text(FirstNonEmpty([e.callsign, e.uid]))),
                  t.Say(TaskKind, Text("marker")), t.Say(TaskStatus, Text(Q.StatusFor(s, "marker")))];
      var first := Q.ProvenanceTriples(c, s, t.subject) + own;
      var located := first + Q.PointTriple(t, TaskPosition, e.point);
      var description := t.Say(TaskDescription, Text(TrimSpace(e.remarks)));
      assert Q.TaskTriples(c, s) == located + IfSome(TrimSpace(e.remarks) != "", description);
      AsMapIfSome(located, TrimSpace(e.remarks) != "", description);
      AsMapAppend(first, Q.PointTriple(t, TaskPosition, e.point));
      PointIsSaid(t, TaskPosition, e.point);
      AsMapAppend(Q.ProvenanceTriples(c, s, t.subject), own);
      ProvenanceIsSaid(c, s, t.subject);
      TriplesOfFour(own);
      StatusIs(s, "marker");
    }
  }

  lemma AdvisorySpeaks(c: Config, s: Q.SourceEvent)
    ensures var v := ViewOf(s.event, s.clock);
      if v.words == "" then Q.AdvisoryTriples(c, s) == []
      else Q.AdvisoryTriples(c, s) != [] && AsMap(Q.AdvisoryTriples(c, s)) == AdvisorySays(c, v, s.sourceRef)
  {
    hide AsMap, TrimSpace, Q.EntityId, Q.StatusFor, Status, IfSome, Q.PointTriple, Located, Provenance, Q.ProvenanceTriples,
      PurposeOf, FirstNonEmpty, FirstOf;
    var e, t, v := s.event, Q.StampOf(c, s, Q.AdvisoryId(c, s.event.uid)), ViewOf(s.event, s.clock);
    FirstTrimmed(e.chatText, e.remarks);
    FirstTrimmed(e.senderUid, e.callsign);
    if v.words != "" {
      var own := [t.Say(AdvisoryNativeId, Text(Q.NativeId(e.uid))), t.Say(AdvisoryText, Text(v.words)),
                  t.Say(AdvisoryKind, Text("geochat")), t.Say(AdvisoryStatus, Text(Q.StatusFor(s, "geochat")))];
      var first := Q.ProvenanceTriples(c, s, t.subject) + own;
      var sender := t.Say(AdvisorySender, Text(v.sender));
      var signed := first + IfSome(v.sender != "", sender);
      assert Q.AdvisoryTriples(c, s) == signed + Q.PointTriple(t, AdvisoryPosition, e.point);
      AsMapAppend(signed, Q.PointTriple(t, AdvisoryPosition, e.point));
      PointIsSaid(t, AdvisoryPosition, e.point);
      AsMapIfSome(first, v.sender != "", sender);
      AsMapAppend(Q.ProvenanceTriples(c, s, t.subject), own);
      ProvenanceIsSaid(c, s, t.subject);
      TriplesOfFour(own);
      StatusIs(s, "geochat");
    }
  }

  // ---------- Into the graph ----------

  lemma KeysAreWritten(c: Config, entityType: string, uid: string)
    ensures Q.EntityId(c, entityType, uid) == EntityKey(c, entityType, TrimSpace(uid))
  {
    hide Key, TrimSpace, Dashed, TrimDashes;
    TrimIsIdempotent(uid);
    KeyShape(if c.org == "" then "c360" else c.org, if c.platform == "" then "edge" else c.platform, "tak", entityType, EntityToken(uid));
  }

  lemma TrackIsShown(g: Graph, c: Config, s: Q.SourceEvent)
    requires PurposeOf(s.event.kind) in {Operator, Aircraft}
    ensures Effect(g, Q.TrackIntents(c, s)) == GraphWith(g, c, ViewOf(s.event, s.clock), s.sourceRef)
  {
    hide Q.SourceAssetTriples, Q.EntityId, EntityKey, Effect, AsMap, TrimSpace, FirstOf, TrackSays, AssetSays, PurposeOf;
    if s.event.point.Some? || s.event.hasTrack {
      hide Q.TrackTriples;
      TrackSpeaks(c, s);
      AssetSpeaks(c, s);
      KeysAreWritten(c, "asset", s.event.uid);
      KeysAreWritten(c, "track", s.event.uid);
      SourcedEffect(g, Q.SourceAssetId(c, s.event.uid), Q.SourceAssetTriples(c, s), Q.TrackId(c, s.event.uid), TakTrackContract(),
                    Q.TrackTriples(c, s), Q.SourceEdge(c, s));
    } else {
      EffectOfNothing(g);
    }
  }

  lemma EffectOfNothing(g: Graph)
    ensures Effect(g, []) == g
  {}

  /** What one event makes of the graph, applied once. */
  lemma EventIsShown(g: Graph, c: Config, s: Q.SourceEvent)
    ensures Effect(g, Q.IntentsOf(c, s)) == GraphWith(g, c, ViewOf(s.event, s.clock), s.sourceRef)
  {
    hide Q.TrackIntents, Q.TaskTriples, Q.AdvisoryTriples, Q.EntityId, EntityKey, Effect, AsMap, TrimSpace, FirstOf,
      TrackSays, AssetSays, TaskSays, AdvisorySays;
    var id := s.event.uid;
    match PurposeOf(s.event.kind)
    case Chat =>
      AdvisorySpeaks(c, s);
      KeysAreWritten(c, "advisory", id);
      LoneEffect(g, Advisory, Q.AdvisoryId(c, id), TakAdvisoryContract(), Q.AdvisoryTriples(c, s));
      EffectOfNothing(g);
    case Marker =>
      TaskSpeaks(c, s);
      KeysAreWritten(c, "task", id);
      LoneEffect(g, Task, Q.TaskId(c, id), TakTaskContract(), Q.TaskTriples(c, s));
      EffectOfNothing(g);
    case Other =>
      EffectOfNothing(g);
    case _ =>
      TrackIsShown(g, c, s);
  }

  // ---------- What is received ----------

  /** The event as the receiver reads it, given the sender's clock. */
  function Received(e: C.Event, clock: nat): Option<C.Event> {
    C.FromXml(C.ToXml(e, clock))
  }

  lemma ReceivedIs(e: C.Event, clock: nat)
    requires e.Valid() && clock != 0
    ensures Received(e, clock) == Some(C.Settled(e, clock)) && C.Settled(e, clock).Valid()
  {
    hide TrimSpace, C.FromXml, C.ToXml;
    C.RoundTripSettles(e, clock);
    C.SettledIsNormal(e, clock);
  }

  lemma TrimmedAgain(e: C.Event)
    ensures TrimSpace(TrimSpace(e.uid)) == TrimSpace(e.uid) && TrimSpace(TrimSpace(e.callsign)) == TrimSpace(e.callsign)
    ensures TrimSpace(TrimSpace(e.remarks)) == TrimSpace(e.remarks)
    ensures TrimSpace(TrimSpace(e.chatText)) == TrimSpace(e.chatText)
    ensures TrimSpace(TrimSpace(e.senderUid)) == TrimSpace(e.senderUid)
    ensures TrimSpace("") == ""
  {
    hide TrimSpace;
    TrimOfEmpty();
    TrimIsIdempotent(e.uid);
    TrimIsIdempotent(e.callsign);
    TrimIsIdempotent(e.remarks);
    TrimIsIdempotent(e.chatText);
    TrimIsIdempotent(e.senderUid);
  }

  lemma ReceivedLooksAsSent(e: C.Event, clock: nat, later: nat)
    requires clock != 0
    ensures ViewOf(C.Settled(e, clock), later) == ViewOfSent(e, clock)
  {
    hide TrimSpace, PurposeOf, C.IsGeoChatType;
    TrimmedAgain(e);
  }

  /**
   Whatever event a client sends: it is read back as valid, and whenever its plan is reported
   written, under honest faults and whatever retries, the graph is the one before with
   exactly what was sent in it, in the entity that the sender's uid names.
   */
  lemma SentIsShown(c: Config, e: C.Event, clock: nat, sourceRef: string, clocks: seq<nat>, born: Born, w: World)
    requires e.Valid() && clock != 0 && clocks != [] && w.Honest() && BornIn(born, w.graph.Keys)
    ensures Received(e, clock).Some? && Received(e, clock).value.Valid()
    ensures var o := A.WrittenWith(c, Received(e, clock).value, sourceRef, clocks, born, w);
      o.status.Written? ==> o.world.graph == GraphWith(w.graph, c, ViewOfSent(e, clock), sourceRef)
  {
    hide Received, C.Event.Valid, A.WrittenWith, Effect, GraphWith, ViewOf, ViewOfSent, BornIn, TrimSpace, Q.IntentsOf;
    ReceivedIs(e, clock);
    var received := Received(e, clock).value;
    A.WrittenIsAsIfOnce(c, received, sourceRef, clocks, born, w);
    EventIsShown(w.graph, c, Q.SourceEvent(received, sourceRef, clocks[0]));
    ReceivedLooksAsSent(e, clock, clocks[0]);
  }

  // ---------- Who says it ----------

  lemma TrackIsSigned(c: Config, s: Q.SourceEvent)
    ensures Signed(Q.TrackTriples(c, s), Q.TrackId(c, s.event.uid), "tak-cot", ViewOf(s.event, s.clock).time, c.confidence)
  {
    hide TrimSpace, FirstOf, PurposeOf, Q.EntityId, Q.NativeId, Q.StatusFor, Q.WktPoint;
  }

  lemma AssetIsSigned(c: Config, s: Q.SourceEvent)
    ensures Signed(Q.SourceAssetTriples(c, s), Q.SourceAssetId(c, s.event.uid), "tak-cot", ViewOf(s.event, s.clock).time, c.confidence)
  {
    hide TrimSpace, FirstOf, PurposeOf, FirstNonEmpty, Q.EntityId, Q.NativeId;
  }

  lemma TaskIsSigned(c: Config, s: Q.SourceEvent)
    ensures Signed(Q.TaskTriples(c, s), Q.TaskId(c, s.event.uid), "tak-cot", ViewOf(s.event, s.clock).time, c.confidence)
  {
    hide TrimSpace, FirstOf, PurposeOf, FirstNonEmpty, Q.EntityId, Q.NativeId, Q.StatusFor, Q.WktPoint;
  }

  lemma AdvisoryIsSigned(c: Config, s: Q.SourceEvent)
    ensures Signed(Q.AdvisoryTriples(c, s), Q.AdvisoryId(c, s.event.uid), "tak-cot", ViewOf(s.event, s.clock).time, c.confidence)
  {
    hide TrimSpace, FirstOf, PurposeOf, FirstNonEmpty, Q.EntityId, Q.NativeId, Q.StatusFor, Q.WktPoint;
  }

  /** Every mutation of an event is signed by the feed, with the time and confidence of the event in every triple. */
  lemma EventIsSigned(c: Config, s: Q.SourceEvent, born: Born)
    ensures var v := ViewOf(s.event, s.clock);
      forall m <- PlanOf(Q.IntentsOf(c, s), born) ::
        match v.purpose
        case Chat =>
          m.id == EntityKey(c, "advisory", v.uid) && SignedBy(m, "semops.feed.tak", "content", "tak-cot", v.time, c.confidence)
        case Marker =>
          m.id == EntityKey(c, "task", v.uid) && SignedBy(m, "semops.feed.tak", "control", "tak-cot", v.time, c.confidence)
        case Other => false
        case _ =>
          if m.id == EntityKey(c, "asset", v.uid) then SignedBy(m, "semops.feed.asset", "control", "tak-cot", v.time, c.confidence)
          else m.id == EntityKey(c, "track", v.uid) && SignedBy(m, "semops.feed.tak", "signal", "tak-cot", v.time, c.confidence)
  {
    hide TrimSpace, FirstOf, Q.EntityId, EntityKey, PlanOf, KindOfId, Q.TrackTriples, Q.SourceAssetTriples, Q.TaskTriples, Q.AdvisoryTriples;
    var uid := s.event.uid;
    Q.IdsAreNamed(c, uid);
    KeysAreWritten(c, "asset", uid);
    KeysAreWritten(c, "track", uid);
    KeysAreWritten(c, "task", uid);
    KeysAreWritten(c, "advisory", uid);
    TrackIsSigned(c, s);
    AssetIsSigned(c, s);
    TaskIsSigned(c, s);
    AdvisoryIsSigned(c, s);
    PlanElements(Q.IntentsOf(c, s), born);
  }
}
