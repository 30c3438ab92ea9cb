/**
 From a civil alert to the picture: what one alert leaves in the graph, and what a hazard
 shows after any number of alerts about it, all in the words of the alerts themselves.
 */
module CapEndToEnd {
  import opened Checksum
  import opened Cop
  import opened GraphService
  import opened BirthProtocol
  import opened AsIfOnce
  import opened Projection
  import opened Tokens
  import opened Outlines
  import opened Hazards
  import H = CapProjector

  // ---------- What an alert says ----------

  /** The time an alert speaks for: when its first info takes effect, or else when it was sent. */
  function AlertTime(a: H.Alert): nat {
    if a.infos != [] && a.infos[0].effective != 0 then a.infos[0].effective else a.sent
  }

  function AreaOf(a: H.Alert): H.Area {
    if a.infos != [] && a.infos[0].areas != [] then a.infos[0].areas[0]
    else H.Area(areaDesc := "", polygons := [], circles := [])
  }

  /** The evidence: the alert with its first info and the first area of that. */
  function EvidenceFor(a: H.Alert): HazardDocument {
    var hasInfo := a.infos != [];
    HazardDocument(
      identifier := a.identifier, messageType := a.msgType, status := a.status,
      event := if hasInfo then a.infos[0].event else "",
      urgency := if hasInfo then a.infos[0].urgency else "",
      severity := if hasInfo then a.infos[0].severity else "",
      certainty := if hasInfo then a.infos[0].certainty else "",
      sender := a.sender, senderName := if hasInfo then a.infos[0].senderName else "",
      sent := a.sent, effective := AlertTime(a), expires := if hasInfo then a.infos[0].expires else 0,
      areaDesc := AreaOf(a).areaDesc, polygons := AreaOf(a).polygons, circles := AreaOf(a).circles)
  }

  function BlankLineBetween(first: string, rest: string): string {
    if first == "" then rest else if rest == "" then first else first + "\n\n" + rest
  }

  /** Headline, description and instruction as paragraphs; failing all three the event, failing that the identifier. */
  function WordsOf(a: H.Alert): string {
    if a.infos == [] then a.identifier
    else
      var (headline, description, instruction) :=
        (TrimSpace(a.infos[0].headline), TrimSpace(a.infos[0].description), TrimSpace(a.infos[0].instruction));
      var words := BlankLineBetween(headline, BlankLineBetween(description, instruction));
      if words != "" then words
      else if TrimSpace(a.infos[0].event) != "" then TrimSpace(a.infos[0].event)
      else TrimSpace(a.identifier)
  }

  /** How far an alert is trusted, by the certainty of its first info in whatever case. */
  function TrustIn(a: H.Alert, fallback: real): real {
    if a.infos == [] then fallback
    else
      match LowerAll(a.infos[0].certainty)
      case "observed" => 0.95
      case "likely" => 0.82
      case "possible" => 0.58
      case "unlikely" => 0.35
      case "unknown" => 0.4
      case _ => fallback
  }

  function HazardKey(c: Config, identifier: string): string {
    (if c.org == "" then "c360" else c.org) + "." + (if c.platform == "" then "edge" else c.platform)
    + ".cop.cap.hazard_area." + EntityToken(identifier)
  }

  function AlertSays(c: Config, a: H.Alert, sourceRef: string): Properties {
    map[HazardAdvisoryText := Text(WordsOf(a)), HazardEvidence := Document(EvidenceFor(a)), HazardSource := Text("cap"),
        ProvenanceSource := Text("cap"), ProvenanceConfidence := Number(TrustIn(a, c.confidence)),
        ProvenanceObservedAt := Cop.Instant(AlertTime(a))]
    + if sourceRef != "" then map[ProvenanceSourceRef := Text(sourceRef)] else map[]
  }

  lemma TimeIs(a: H.Alert)
    ensures H.ObservedAt(a) == AlertTime(a)
  {}

  lemma EvidenceIs(a: H.Alert)
    ensures H.EvidenceDocument(a) == EvidenceFor(a)
  {}

  lemma WordsAre(a: H.Alert)
    ensures H.AdvisoryTextFor(a) == WordsOf(a)
  {
    hide TrimSpace, H.Paragraphs, FirstNonEmpty;
    if a.infos != [] {
      var info := a.infos[0];
      ParagraphsOfThree(info.headline, info.description, info.instruction);
      FirstOfThree(info.headline, info.event, a.identifier);
    }
  }

  lemma ParagraphsOfThree(a: string, b: string, c: string)
    ensures H.Paragraphs([a, b, c]) == BlankLineBetween(TrimSpace(a), BlankLineBetween(TrimSpace(b), TrimSpace(c)))
  {
    hide TrimSpace;
    assert [a, b, c][1..] == [b, c] && [b, c][1..] == [c] && [c][1..] == [];
    assert H.Paragraphs([]) == "";
    assert H.Paragraphs([c]) == TrimSpace(c);
    assert H.Paragraphs([b, c]) == BlankLineBetween(TrimSpace(b), TrimSpace(c));
  }

  lemma FirstOfThree(a: string, b: string, c: string)
    ensures FirstNonEmpty([a, b, c]) ==
      if TrimSpace(a) != "" then TrimSpace(a) else if TrimSpace(b) != "" then TrimSpace(b) else TrimSpace(c)
  {
    hide TrimSpace;
    assert [a, b, c][1..] == [b, c] && [b, c][1..] == [c] && [c][1..] == [];
    assert FirstNonEmpty([]) == "";
    assert FirstNonEmpty([c]) == TrimSpace(c);
  }

  lemma TrustIs(a: H.Alert, fallback: real)
    ensures H.ConfidenceFor(a, fallback) == TrustIn(a, fallback)
  {
    hide LowerAll;
  }

  // ---------- One alert in the graph ----------

  lemma EvidenceSpeaks(c: Config, s: H.SourceAlert)
    ensures AsMap(H.EvidenceTriples(c, s)) == AlertSays(c, s.alert, s.sourceRef)
  {
    hide AsMap, IfSome, H.HazardId, H.AdvisoryTextFor, H.EvidenceDocument, H.ConfidenceFor, H.ObservedAt,
      WordsOf, EvidenceFor, TrustIn, AlertTime;
    TimeIs(s.alert);
    EvidenceIs(s.alert);
    WordsAre(s.alert);
    TrustIs(s.alert, c.confidence);
    NoTriples();
    var all := H.EvidenceTriples(c, s);
    var t := Stamp(H.HazardId(c, s.alert.identifier), "cap", AlertTime(s.alert), TrustIn(s.alert, c.confidence));
    var first := all[..6];
    assert all == first + IfSome(s.sourceRef != "", t.Say(ProvenanceSourceRef, Text(s.sourceRef)));
    AsMapIfSome(first, s.sourceRef != "", t.Say(ProvenanceSourceRef, Text(s.sourceRef)));
    AsMapStep(first, 0);
    AsMapStep(first, 1);
    AsMapStep(first, 2);
    AsMapStep(first, 3);
    AsMapStep(first, 4);
    AsMapStep(first, 5);
  }

  lemma KeyIsWritten(c: Config, identifier: string)
    ensures H.HazardId(c, identifier) == HazardKey(c, identifier)
  {
    hide Key, EntityToken, Join;
    var head := (if c.org == "" then "c360" else c.org) + "." + (if c.platform == "" then "edge" else c.platform);
    var token := EntityToken(identifier);
    KeyShape(if c.org == "" then "c360" else c.org, if c.platform == "" then "edge" else c.platform, "cap", "hazard_area", token);
    MiddleIsWritten(head, token);
  }

  lemma MiddleIsWritten(head: string, token: string)
    ensures (head + ".cop." + "cap" + ".") + ("hazard_area" + "." + token) == head + ".cop.cap.hazard_area." + token
  {
    var middle := ".cop." + "cap" + "." + "hazard_area" + ".";
    assert middle == ".cop.cap.hazard_area.";
    assert (head + ".cop." + "cap" + ".") + ("hazard_area" + "." + token) == head + middle + token;
  }

  /**
   The plan of an alert is one mutation of its hazard, which is born unless it was before, and
   says this evidence; the feed signs it with the time and the trust of the alert.
   */
  lemma AlertIsPlanned(c: Config, s: H.SourceAlert, born: Born)
    ensures var plan := PlanOf([H.HazardIntent(c, s)], born);
      |plan| == 1 && plan[0].id == HazardKey(c, s.alert.identifier)
      && (plan[0].Create? <==> Ref(Kind.Hazard, plan[0].id) !in born)
      && (plan[0].Create? ==> plan[0].messageType == "semops.cap.hazard.v1")
      && AsMap(plan[0].triples) == AlertSays(c, s.alert, s.sourceRef)
      && SignedBy(plan[0], "semops.feed.cap", "content", "cap", AlertTime(s.alert), TrustIn(s.alert, c.confidence))
  {
    hide AsMap, PlanOf, H.HazardId, HazardKey, H.EvidenceTriples, AlertSays, TrustIn, AlertTime;
    KeyIsWritten(c, s.alert.identifier);
    EvidenceSpeaks(c, s);
    EvidenceIsSigned(c, s);
    PlanOfOne(H.HazardIntent(c, s), born);
  }

  lemma EvidenceIsSigned(c: Config, s: H.SourceAlert)
    ensures Signed(H.EvidenceTriples(c, s), H.HazardId(c, s.alert.identifier), "cap", AlertTime(s.alert),
                   TrustIn(s.alert, c.confidence))
  {
    hide H.HazardId, H.AdvisoryTextFor, H.EvidenceDocument, H.ConfidenceFor, H.ObservedAt, TrustIn, AlertTime;
    TimeIs(s.alert);
    TrustIs(s.alert, c.confidence);
  }

  // ---------- What a hazard shows ----------

  ghost predicate CanBeDrawn(a: H.Alert, cosine: Cosine) {
    !Draws(Nothing, AreaOf(a).polygons, AreaOf(a).circles, cosine)
  }

  /** An alert for real, as its status says; no status counts as one. */
  predicate IsActual(a: H.Alert) {
    Folded(a.status) == "" || Folded(a.status) == "actual"
  }

  predicate IsCancel(a: H.Alert) {
    IsActual(a) && Folded(a.msgType) == "cancel"
  }

  /** An alert that is meant to be acted on: neither an exercise nor a draft, and not taken back. */
  predicate IsOperational(a: H.Alert) {
    IsActual(a) && Folded(a.msgType) != "cancel" && Folded(a.msgType) != "error" && Folded(a.msgType) != "ack"
  }

  predicate HasExpired(a: H.Alert, now: nat) {
    a.infos != [] && a.infos[0].expires != 0 && now != 0 && a.infos[0].expires <= now
  }

  predicate IsFresh(a: H.Alert, now: nat, freshness: int) {
    freshness <= 0 || now - AlertTime(a) <= freshness
  }

  function StatusOf(a: H.Alert, now: nat, freshness: int): string {
    var kind := Folded(a.msgType);
    if !IsActual(a) then "nonoperational." + Folded(a.status)
    else if kind == "cancel" then "cancelled"
    else if kind == "error" then "error"
    else if kind == "ack" then "acknowledged"
    else if HasExpired(a, now) then "expired"
    else (if IsFresh(a, now, freshness) then "active" else "stale") + if kind == "update" then ".update" else ""
  }

  function SeverityOf(a: H.Alert): string {
    if a.infos == [] || TrimSpace(a.infos[0].severity) == "" then "unknown" else Folded(a.infos[0].severity)
  }

  /** The picture shows what this alert says, or nothing if it cannot be drawn. */
  ghost predicate Pictures(h: Option<Hazard>, a: H.Alert, now: nat, freshness: int, cosine: Cosine) {
    if CanBeDrawn(a, cosine) then
      h.Some? && Draws(h.value.outline, AreaOf(a).polygons, AreaOf(a).circles, cosine) && h.value.outline != Nothing
      && h.value.status == StatusOf(a, now, freshness) && h.value.severity == SeverityOf(a) && h.value.updatedAt == AlertTime(a)
    else h == None
  }

  lemma StatusIs(a: H.Alert, now: nat, freshness: int)
    requires AlertTime(a) > 0
    ensures HazardStatus(EvidenceFor(a), now, AlertTime(a), freshness) == StatusOf(a, now, freshness)
  {
    hide Folded;
    assert "active.update" == "active" + ".update" && "stale.update" == "stale" + ".update";
    assert "active" + "" == "active" && "stale" + "" == "stale";
    assert "active.update" != "active";
  }

  lemma SeverityIs(a: H.Alert)
    ensures var severity := TrimSpace(EvidenceFor(a).severity);
      LowerAll(if severity == "" then "unknown" else severity) == SeverityOf(a)
  {
    hide TrimSpace;
    TrimOfEmpty();
    LowerStays("unknown");
  }

  lemma LowerStays(s: string)
    requires forall i :: 0 <= i < |s| ==> 'a' <= s[i] <= 'z'
    ensures LowerAll(s) == s
  {}

  // ---------- Alerts in any order ----------

  /** What a list of alerts has appended at their hazard. */
  function EvidenceOf(c: Config, alerts: seq<H.SourceAlert>): seq<Triple> {
    if alerts == [] then []
    else EvidenceOf(c, alerts[..|alerts| - 1]) + H.EvidenceTriples(c, alerts[|alerts| - 1])
  }

  /** The alert that speaks for the latest time, and among those the one appended last. */
  function NewestAlert(alerts: seq<H.SourceAlert>): H.SourceAlert
    requires alerts != []
  {
    var last := alerts[|alerts| - 1];
    if |alerts| == 1 then last
    else
      var before := NewestAlert(alerts[..|alerts| - 1]);
      if AlertTime(last.alert) >= AlertTime(before.alert) then last else before
  }

  lemma OneAlert(c: Config, s: H.SourceAlert)
    ensures var t := H.EvidenceTriples(c, s);
      Latest(t, HazardEvidence) == Some(t[1]) && t[1].object_ == Document(EvidenceFor(s.alert))
      && Latest(t, ProvenanceObservedAt) == Some(t[5]) && t[5].object_ == Cop.Instant(AlertTime(s.alert))
      && t[1].timestamp == t[5].timestamp == AlertTime(s.alert)
  {
    hide H.HazardId, H.AdvisoryTextFor, H.EvidenceDocument, H.ConfidenceFor, H.ObservedAt, EvidenceFor, AlertTime, Latest;
    TimeIs(s.alert);
    EvidenceIs(s.alert);
    var t := H.EvidenceTriples(c, s);
    LatestIsGreatest(t, HazardEvidence);
    LatestIsGreatest(t, ProvenanceObservedAt);
  }

  lemma {:induction false} EvidenceComesFromNewest(c: Config, alerts: seq<H.SourceAlert>)
    requires alerts != []
    ensures var t, newest := EvidenceOf(c, alerts), NewestAlert(alerts);
      var e, o := Latest(t, HazardEvidence), Latest(t, ProvenanceObservedAt);
      e.Some? && e.value.object_ == Document(EvidenceFor(newest.alert)) && e.value.timestamp == AlertTime(newest.alert)
      && o.Some? && o.value.object_ == Cop.Instant(AlertTime(newest.alert)) && o.value.timestamp == AlertTime(newest.alert)
    decreases |alerts|
  {
    hide Latest, EvidenceFor, H.EvidenceTriples, AlertTime;
    var n := |alerts| - 1;
    OneAlert(c, alerts[n]);
    LatestAppend(EvidenceOf(c, alerts[..n]), H.EvidenceTriples(c, alerts[n]), HazardEvidence);
    LatestAppend(EvidenceOf(c, alerts[..n]), H.EvidenceTriples(c, alerts[n]), ProvenanceObservedAt);
    if n == 0 {
      NoEvidence(c, alerts[..0]);
    } else {
      EvidenceComesFromNewest(c, alerts[..n]);
    }
  }

  lemma NoEvidence(c: Config, none: seq<H.SourceAlert>)
    requires none == []
    ensures Latest(EvidenceOf(c, none), HazardEvidence).None? && Latest(EvidenceOf(c, none), ProvenanceObservedAt).None?
  {}

  lemma ValidAlertIsTimed(a: H.Alert)
    requires a.Valid()
    ensures AlertTime(a) > 0 && a.identifier != ""
  {
    hide TrimSpace;
    TrimOfEmpty();
  }

  lemma ShownIsPictured(a: H.Alert, now: nat, freshness: int, cosine: Cosine)
    requires AlertTime(a) > 0
    ensures Pictures(Shown(EvidenceFor(a), now, AlertTime(a), freshness, cosine), a, now, freshness, cosine)
  {
    hide Draws, HazardGeometry, HazardStatus, StatusOf, SeverityOf, TrimSpace, LowerAll, AlertTime, AreaOf;
    OutlineIsDrawn(EvidenceFor(a), cosine);
    NothingExactly(EvidenceFor(a), cosine);
    StatusIs(a, now, freshness);
    SeverityIs(a);
  }

  /** A hazard shows exactly what its newest alert says, whatever else was appended before or after. */
  lemma NewestAlertDecides(c: Config, alerts: seq<H.SourceAlert>, rest: EntityState, now: nat, freshness: int, cosine: Cosine)
    requires alerts != [] && NewestAlert(alerts).alert.Valid()
    ensures var h := HazardFrom(rest.(triples := EvidenceOf(c, alerts)), now, freshness, cosine);
      Pictures(h, NewestAlert(alerts).alert, now, freshness, cosine)
  {
    hide Latest, Shown, H.Alert.Valid, NewestAlert, EvidenceOf, AlertTime, Pictures;
    var newest := NewestAlert(alerts).alert;
    EvidenceComesFromNewest(c, alerts);
    ValidAlertIsTimed(newest);
    ShownIsPictured(newest, now, freshness, cosine);
  }

  /** So two lists of alerts with the same newest one show the same. */
  lemma SameNewestSamePicture(
      c: Config, alerts: seq<H.SourceAlert>, others: seq<H.SourceAlert>, rest: EntityState, now: nat, freshness: int, cosine: Cosine)
    requires alerts != [] && others != [] && NewestAlert(alerts).alert.Valid() && NewestAlert(others) == NewestAlert(alerts)
    ensures HazardFrom(rest.(triples := EvidenceOf(c, others)), now, freshness, cosine)
         == HazardFrom(rest.(triples := EvidenceOf(c, alerts)), now, freshness, cosine)
  {
    hide Latest, Shown, H.Alert.Valid, NewestAlert, EvidenceOf, AlertTime, EvidenceFor;
    EvidenceComesFromNewest(c, alerts);
    EvidenceComesFromNewest(c, others);
    ValidAlertIsTimed(NewestAlert(alerts).alert);
  }

  predicate AllOlder(alerts: seq<H.SourceAlert>, time: nat) {
    forall i :: 0 <= i < |alerts| ==> AlertTime(alerts[i].alert) < time
  }

  lemma {:induction false} OlderAlertsLose(alerts: seq<H.SourceAlert>, more: seq<H.SourceAlert>)
    requires alerts != [] && AllOlder(more, AlertTime(NewestAlert(alerts).alert))
    ensures NewestAlert(alerts + more) == NewestAlert(alerts)
    decreases |more|
  {
    hide AlertTime;
    if more == [] {
      assert alerts + more == alerts;
    } else {
      var init := more[..|more| - 1];
      assert (alerts + more)[..|alerts + more| - 1] == alerts + init;
      OlderAlertsLose(alerts, init);
    }
  }

  /**
   Once the newest alert is a cancel that can be drawn, the hazard is shown as cancelled, and
   no older alerts appended afterwards make it active again.
   */
  lemma CancelledStaysCancelled(
      c: Config, alerts: seq<H.SourceAlert>, more: seq<H.SourceAlert>, rest: EntityState, now: nat, freshness: int, cosine: Cosine)
    requires alerts != [] && NewestAlert(alerts).alert.Valid() && IsCancel(NewestAlert(alerts).alert)
    requires CanBeDrawn(NewestAlert(alerts).alert, cosine) && AllOlder(more, AlertTime(NewestAlert(alerts).alert))
    ensures var h := HazardFrom(rest.(triples := EvidenceOf(c, alerts + more)), now, freshness, cosine);
      h.Some? && h.value.status == "cancelled"
      && h == HazardFrom(rest.(triples := EvidenceOf(c, alerts)), now, freshness, cosine)
  {
    hide H.Alert.Valid, NewestAlert, EvidenceOf, AlertTime, CanBeDrawn, AllOlder, HazardFrom, Folded, Draws;
    OlderAlertsLose(alerts, more);
    NewestAlertDecides(c, alerts, rest, now, freshness, cosine);
    SameNewestSamePicture(c, alerts, alerts + more, rest, now, freshness, cosine);
  }

  /** A single writer's retry, which appends the last evidence once more at once, changes nothing. */
  lemma RetriedEvidenceIsHarmless(c: Config, alerts: seq<H.SourceAlert>, rest: EntityState, now: nat, freshness: int, cosine: Cosine)
    requires alerts != [] && NewestAlert(alerts).alert.Valid()
    ensures HazardFrom(rest.(triples := EvidenceOf(c, alerts + [alerts[|alerts| - 1]])), now, freshness, cosine)
         == HazardFrom(rest.(triples := EvidenceOf(c, alerts)), now, freshness, cosine)
  {
    hide H.Alert.Valid, EvidenceOf, AlertTime, HazardFrom;
    var again := alerts[|alerts| - 1];
    assert (alerts + [again])[..|alerts|] == alerts;
    SameNewestSamePicture(c, alerts, alerts + [again], rest, now, freshness, cosine);
  }

  lemma ActiveStatus(a: H.Alert, now: nat, freshness: int)
    ensures StatusOf(a, now, freshness) in {"active", "active.update"} <==>
      IsOperational(a) && !HasExpired(a, now) && IsFresh(a, now, freshness)
    ensures StatusOf(a, now, freshness) == "cancelled" <==> IsCancel(a)
  {
    hide Folded, HasExpired, IsFresh;
    assert "active" + "" == "active" && "active" + ".update" == "active.update";
    assert "stale"[0] == 's' && ("stale" + ".update")[0] == 's' && "cancelled"[0] == 'c' && "active"[0] == 'a';
    assert "active.update"[0] == 'a' && "error"[0] == 'e' && "expired"[0] == 'e' && "acknowledged"[0] == 'a';
    assert "acknowledged"[2] == 'k' && "active"[2] == 't' && "active.update"[2] == 't';
    assert ("nonoperational." + Folded(a.status))[0] == 'n';
  }

  /**
   A hazard is shown as active exactly when the newest alert about it is operational, has not
   expired and is fresh enough, whatever the other alerts say.
   */
  lemma ActiveExactly(c: Config, alerts: seq<H.SourceAlert>, rest: EntityState, now: nat, freshness: int, cosine: Cosine)
    requires alerts != [] && NewestAlert(alerts).alert.Valid() && CanBeDrawn(NewestAlert(alerts).alert, cosine)
    ensures var newest := NewestAlert(alerts).alert;
      var h := HazardFrom(rest.(triples := EvidenceOf(c, alerts)), now, freshness, cosine);
      h.Some? && (h.value.status in {"active", "active.update"} <==>
                    IsOperational(newest) && !HasExpired(newest, now) && IsFresh(newest, now, freshness))
  {
    hide H.Alert.Valid, NewestAlert, EvidenceOf, CanBeDrawn, HazardFrom, Draws, StatusOf, IsOperational, HasExpired, IsFresh;
    NewestAlertDecides(c, alerts, rest, now, freshness, cosine);
    ActiveStatus(NewestAlert(alerts).alert, now, freshness);
  }

  /**
   Evidence that another writer, or a poll after a restart, appends behind a cancel: the
   hazard becomes active again exactly when that evidence is not older than the cancel and
   is itself operational, unexpired and fresh.
   */
  lemma RedeliveryRevivesExactly(
      c: Config, alerts: seq<H.SourceAlert>, again: H.SourceAlert, rest: EntityState, now: nat, freshness: int, cosine: Cosine)
    requires alerts != [] && NewestAlert(alerts).alert.Valid() && IsCancel(NewestAlert(alerts).alert) && again.alert.Valid()
    requires CanBeDrawn(NewestAlert(alerts).alert, cosine) && CanBeDrawn(again.alert, cosine)
    ensures var h := HazardFrom(rest.(triples := EvidenceOf(c, alerts + [again])), now, freshness, cosine);
      h.Some?
      && (h.value.status in {"active", "active.update"} <==>
            AlertTime(again.alert) >= AlertTime(NewestAlert(alerts).alert)
            && IsOperational(again.alert) && !HasExpired(again.alert, now) && IsFresh(again.alert, now, freshness))
  {
    hide H.Alert.Valid, EvidenceOf, AlertTime, CanBeDrawn, HazardFrom, Folded, HasExpired, IsFresh;
    assert (alerts + [again])[..|alerts|] == alerts;
    ActiveExactly(c, alerts + [again], rest, now, freshness, cosine);
  }

  /**
   A cancel appended after another alert takes effect exactly when the time it speaks for is
   not before that of the alert.
   */
  lemma CancelTakesEffectExactly(
      c: Config, alert: H.SourceAlert, cancel: H.SourceAlert, rest: EntityState, now: nat, freshness: int, cosine: Cosine)
    requires alert.alert.Valid() && cancel.alert.Valid() && IsCancel(cancel.alert) && !IsCancel(alert.alert)
    requires CanBeDrawn(alert.alert, cosine) && CanBeDrawn(cancel.alert, cosine)
    ensures var h := HazardFrom(rest.(triples := EvidenceOf(c, [alert, cancel])), now, freshness, cosine);
      h.Some? && (h.value.status == "cancelled" <==> AlertTime(cancel.alert) >= AlertTime(alert.alert))
  {
    hide H.Alert.Valid, EvidenceOf, AlertTime, CanBeDrawn, HazardFrom, Draws, IsCancel, StatusOf;
    var both := [alert, cancel];
    assert both[..1] == [alert];
    NewestAlertDecides(c, both, rest, now, freshness, cosine);
    ActiveStatus(NewestAlert(both).alert, now, freshness);
  }

  /** Where both say when they take effect, only that counts: not how much later the cancel was sent. */
  lemma EffectiveTimesDecide(
      c: Config, alert: H.SourceAlert, cancel: H.SourceAlert, rest: EntityState, now: nat, freshness: int, cosine: Cosine)
    requires alert.alert.Valid() && cancel.alert.Valid() && IsCancel(cancel.alert) && !IsCancel(alert.alert)
    requires CanBeDrawn(alert.alert, cosine) && CanBeDrawn(cancel.alert, cosine)
    requires alert.alert.infos[0].effective != 0 && cancel.alert.infos[0].effective != 0
    ensures var h := HazardFrom(rest.(triples := EvidenceOf(c, [alert, cancel])), now, freshness, cosine);
      h.Some? && (h.value.status == "cancelled" <==> cancel.alert.infos[0].effective >= alert.alert.infos[0].effective)
  {
    hide TrimSpace, EvidenceOf, CanBeDrawn, HazardFrom, IsCancel;
    CancelTakesEffectExactly(c, alert, cancel, rest, now, freshness, cosine);
  }

  /** At a tie the order decides: a cancel of the same time stands until its alert is delivered once more. */
  lemma RedeliveryAtATie(
      c: Config, alert: H.SourceAlert, cancel: H.SourceAlert, rest: EntityState, now: nat, freshness: int, cosine: Cosine)
    requires alert.alert.Valid() && cancel.alert.Valid() && IsCancel(cancel.alert)
    requires AlertTime(alert.alert) == AlertTime(cancel.alert)
    requires IsOperational(alert.alert) && !HasExpired(alert.alert, now) && IsFresh(alert.alert, now, freshness)
    requires CanBeDrawn(alert.alert, cosine) && CanBeDrawn(cancel.alert, cosine)
    ensures var before := HazardFrom(rest.(triples := EvidenceOf(c, [alert, cancel])), now, freshness, cosine);
      var after := HazardFrom(rest.(triples := EvidenceOf(c, [alert, cancel, alert])), now, freshness, cosine);
      before.Some? && before.value.status == "cancelled" && after.Some? && after.value.status in {"active", "active.update"}
  {
    hide H.Alert.Valid, EvidenceOf, AlertTime, CanBeDrawn, HazardFrom, Folded, HasExpired, IsFresh;
    var two := [alert, cancel];
    assert two[..1] == [alert];
    assert two + [alert] == [alert, cancel, alert];
    CancelTakesEffectExactly(c, alert, cancel, rest, now, freshness, cosine);
    RedeliveryRevivesExactly(c, two, alert, rest, now, freshness, cosine);
  }

  // ---------- Such alerts ----------

  const TRIANGLE := [GeoPoint(0.0, 0.0), GeoPoint(0.0, 1.0), GeoPoint(1.0, 0.0)]

  /** An operational message of the given type about a triangle, sent at time 1. */
  function SampleAlert(msgType: string): H.Alert {
    H.Alert("a", "s", 1, "actual", msgType, "public",
            [H.Info("flood", "", "", "", 0, 0, "", "", "", "", [H.Area("", [TRIANGLE], [])])])
  }

  lemma PlainText(s: string)
    requires s != "" && forall i :: 0 <= i < |s| ==> 'a' <= s[i] <= 'z'
    ensures TrimSpace(s) == s && Folded(s) == s
  {
    hide TrimSpace;
    assert IsToken(s);
    TokensAreTrimmed(s);
    LowerStays(s);
  }

  lemma TriangleIsSurface()
    ensures IsSurface(TRIANGLE, TRIANGLE)
  {
    var at: seq<nat> := [0, 1, 2];
    assert at[0] == 0 && at[1] == 1 && at[2] == 2;
    assert Picks(TRIANGLE, 0, TRIANGLE, at);
  }

  lemma TriangleIsDrawn(a: H.Alert, cosine: Cosine)
    requires AreaOf(a).polygons == [TRIANGLE]
    ensures CanBeDrawn(a, cosine)
  {
    hide IsSurface;
    TriangleIsSurface();
    assert TRIANGLE in AreaOf(a).polygons;
  }

  /** An alert and its cancel of one time: cancelled, and active again once the alert is redelivered. */
  lemma SampleTie(c: Config, rest: EntityState, cosine: Cosine)
    ensures var (alert, cancel) := (H.SourceAlert(SampleAlert("alert"), ""), H.SourceAlert(SampleAlert("cancel"), ""));
      var before := HazardFrom(rest.(triples := EvidenceOf(c, [alert, cancel])), 1, 0, cosine);
      var after := HazardFrom(rest.(triples := EvidenceOf(c, [alert, cancel, alert])), 1, 0, cosine);
      before.Some? && before.value.status == "cancelled" && after.Some? && after.value.status in {"active", "active.update"}
  {
    hide EvidenceOf, CanBeDrawn, HazardFrom, TrimSpace, LowerAll, Folded;
    PlainText("a");
    PlainText("s");
    PlainText("actual");
    PlainText("public");
    PlainText("alert");
    PlainText("cancel");
    assert "alert"[0] != 'c' && "alert"[0] != 'e' && "alert"[1] != 'c' && "actual"[0] == 'a';
    TriangleIsDrawn(SampleAlert("alert"), cosine);
    TriangleIsDrawn(SampleAlert("cancel"), cosine);
    RedeliveryAtATie(c, H.SourceAlert(SampleAlert("alert"), ""), H.SourceAlert(SampleAlert("cancel"), ""), rest, 1, 0, cosine);
  }
}
