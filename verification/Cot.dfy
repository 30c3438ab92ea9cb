/**
 The Cursor on Target codec between events and the XML structure that is written and read
 (pkg/adapters/cot/cot.go). Instants count nanoseconds from year one; zero is the unset time.
 */
module Cot {
  import opened Checksum
  import opened Tokens

  const TYPE_GEO_CHAT := "b-t-f"
  const DEFAULT_HOW := "m-g"
  const TWO_MINUTES: nat := 120_000_000_000

  datatype Point = Point(lat: real, lon: real, hae: real, ce: real, le: real)

  datatype Event = Event(
    uid: string, kind: string, how: string,
    time: nat, start: nat, stale: nat,
    point: Option<Point>,
    callsign: string, senderUid: string,
    courseDeg: real, speedMps: real, hasTrack: bool,
    remarks: string, chatText: string)
  {
    predicate Valid() {
      TrimSpace(uid) != "" && TrimSpace(kind) != ""
    }
  }

  method Validate(e: Event) returns (ok: bool)
    ensures ok == e.Valid()
  {
    hide TrimSpace;
    if TrimSpace(e.uid) == "" {
      return false;
    }
    if TrimSpace(e.kind) == "" {
      return false;
    }
    return true;
  }

  // ---------- The XML structure ----------

  /** A time attribute: left out, a timestamp, or something that is none. */
  datatype TimeText = Blank | At(instant: nat) | Malformed

  datatype XmlChat = XmlChat(message: string, senderUid: string, senderUidSnake: string, text: string)

  datatype XmlTrack = XmlTrack(course: real, speed: real)

  datatype XmlDetail = XmlDetail(contact: Option<string>, track: Option<XmlTrack>, remarks: string, chat: Option<XmlChat>)

  const NO_DETAIL := XmlDetail(None, None, "", None)

  datatype XmlEvent = XmlEvent(
    uid: string, kind: string, how: string,
    time: TimeText, start: TimeText, stale: TimeText,
    point: Option<Point>, detail: Option<XmlDetail>)

  predicate IsGeoChatType(kind: string) {
    TYPE_GEO_CHAT <= kind
  }

  predicate IsAirTrackType(kind: string) {
    "a-f-A" <= kind || "a-h-A" <= kind
  }

  predicate IsOperatorType(kind: string) {
    "a-f-G" <= kind || "a-h-G" <= kind
  }

  predicate IsMarkerType(kind: string) {
    "u-d-p" <= kind || "b-m-p" <= kind
  }

  // ---------- What is written ----------

  function OrElse(t: nat, fallback: nat): nat {
    if t == 0 then fallback else t
  }

  function DetailOf(e: Event): XmlDetail {
    var chat := TrimSpace(e.chatText);
    var remarks := TrimSpace(e.remarks);
    XmlDetail(
      if TrimSpace(e.callsign) != "" then Some(TrimSpace(e.callsign)) else None,
      if e.hasTrack then Some(XmlTrack(e.courseDeg, e.speedMps)) else None,
      if remarks != "" then remarks else chat,
      if chat != "" then Some(XmlChat(chat, TrimSpace(e.senderUid), "", "")) else None)
  }

  function ToXml(e: Event, clock: nat): XmlEvent {
    var now := OrElse(e.time, clock);
    var detail := DetailOf(e);
    XmlEvent(
      TrimSpace(e.uid), TrimSpace(e.kind), if e.how == "" then DEFAULT_HOW else e.how,
      At(now), At(OrElse(e.start, now)), At(OrElse(e.stale, now + TWO_MINUTES)),
      e.point, if detail == NO_DETAIL then None else Some(detail))
  }

  method BuildDetail(e: Event) returns (detail: XmlDetail)
    ensures detail == DetailOf(e)
  {
    hide TrimSpace;
    detail := NO_DETAIL;
    if TrimSpace(e.callsign) != "" {
      detail := detail.(contact := Some(TrimSpace(e.callsign)));
    }
    if e.hasTrack {
      detail := detail.(track := Some(XmlTrack(e.courseDeg, e.speedMps)));
    }
    if TrimSpace(e.remarks) != "" {
      detail := detail.(remarks := TrimSpace(e.remarks));
    }
    if TrimSpace(e.chatText) != "" {
      detail := detail.(chat := Some(XmlChat(TrimSpace(e.chatText), TrimSpace(e.senderUid), "", "")));
      if detail.remarks == "" {
        detail := detail.(remarks := TrimSpace(e.chatText));
      }
    }
  }

  method Marshal(e: Event, clock: nat) returns (x: Option<XmlEvent>)
    ensures x == if e.Valid() then Some(ToXml(e, clock)) else None
  {
    hide TrimSpace, DetailOf;
    var ok := Validate(e);
    if !ok {
      return None;
    }
    var now := e.time;
    if now == 0 {
      now := clock;
    }
    var start := e.start;
    if start == 0 {
      start := now;
    }
    var stale := e.stale;
    if stale == 0 {
      stale := now + TWO_MINUTES;
    }
    var how := e.how;
    if how == "" {
      how := DEFAULT_HOW;
    }
    var out := XmlEvent(TrimSpace(e.uid), TrimSpace(e.kind), how, At(now), At(start), At(stale), e.point, None);
    var detail := BuildDetail(e);
    if detail != NO_DETAIL {
      out := out.(detail := Some(detail));
    }
    x := Some(out);
  }

  /** Unset times stand for the clock, the event's own time, and two minutes after it; an unset how for "m-g". */
  lemma DefaultsAreWritten(e: Event, clock: nat)
    ensures var (x, now) := (ToXml(e, clock), if e.time == 0 then clock else e.time);
      x.time == At(now)
      && x.start == At(if e.start == 0 then now else e.start)
      && x.stale == At(if e.stale == 0 then now + 120 * 1_000_000_000 else e.stale)
      && x.how == if e.how == "" then "m-g" else e.how
  {
    hide TrimSpace;
  }

  // ---------- What is read ----------

  function Instant(t: TimeText): Option<nat> {
    match t
    case Blank => Some(0)
    case At(instant) => Some(instant)
    case Malformed => None
  }

  /** The event that an XML structure describes, before it is checked. */
  function Described(x: XmlEvent, time: nat, start: nat, stale: nat): Event {
    var detail := if x.detail.Some? then x.detail.value else NO_DETAIL;
    var remarks := TrimSpace(detail.remarks);
    var chat := if detail.chat.Some? then FirstNonEmpty([detail.chat.value.message, detail.chat.value.text]) else "";
    Event(
      TrimSpace(x.uid), TrimSpace(x.kind), TrimSpace(x.how), time, start, stale, x.point,
      if detail.contact.Some? then TrimSpace(detail.contact.value) else "",
      if detail.chat.Some? then FirstNonEmpty([detail.chat.value.senderUid, detail.chat.value.senderUidSnake]) else "",
      if detail.track.Some? then detail.track.value.course else 0.0,
      if detail.track.Some? then detail.track.value.speed else 0.0,
      detail.track.Some?,
      remarks,
      if chat == "" && IsGeoChatType(TrimSpace(x.kind)) then remarks else chat)
  }

  function FromXml(x: XmlEvent): Option<Event> {
    var (time, start, stale) := (Instant(x.time), Instant(x.start), Instant(x.stale));
    if time.None? || start.None? || stale.None? then None
    else
      var e := Described(x, time.value, start.value, stale.value);
      if e.Valid() then Some(e) else None
  }

  method Unmarshal(x: XmlEvent) returns (e: Option<Event>)
    ensures e == FromXml(x)
  {
    hide TrimSpace, FirstNonEmpty;
    TrimOfEmpty();
    var time, start, stale := Instant(x.time), Instant(x.start), Instant(x.stale);
    if time.None? || start.None? || stale.None? {
      return None;
    }
    var out := Event(TrimSpace(x.uid), TrimSpace(x.kind), TrimSpace(x.how), time.value, start.value, stale.value,
                     None, "", "", 0.0, 0.0, false, "", "");
    if x.point.Some? {
      out := out.(point := x.point);
    }
    if x.detail.Some? {
      var detail := x.detail.value;
      if detail.contact.Some? {
        out := out.(callsign := TrimSpace(detail.contact.value));
      }
      if detail.track.Some? {
        out := out.(courseDeg := detail.track.value.course, speedMps := detail.track.value.speed, hasTrack := true);
      }
      out := out.(remarks := TrimSpace(detail.remarks));
      if detail.chat.Some? {
        out := out.(chatText := FirstNonEmpty([detail.chat.value.message, detail.chat.value.text]),
                    senderUid := FirstNonEmpty([detail.chat.value.senderUid, detail.chat.value.senderUidSnake]));
      }
      if out.chatText == "" && IsGeoChatType(out.kind) {
        out := out.(chatText := out.remarks);
      }
    }
    var ok := Validate(out);
    if !ok {
      return None;
    }
    e := Some(out);
  }

  /** A blank time is unset, a malformed one refuses the event, and each attribute is read for itself. */
  lemma TimesAreRead(x: XmlEvent)
    ensures x.time == Malformed || x.start == Malformed || x.stale == Malformed ==> FromXml(x) == None
    ensures FromXml(x).Some? ==>
      var e := FromXml(x).value;
      (if x.time.At? then e.time == x.time.instant else e.time == 0)
      && (if x.start.At? then e.start == x.start.instant else e.start == 0)
      && (if x.stale.At? then e.stale == x.stale.instant else e.stale == 0)
  {
    hide TrimSpace, FirstNonEmpty;
  }

  // ---------- Writing and reading back ----------

  predicate IsTrimmed(s: string) {
    TrimSpace(s) == s
  }

  /** Events that say everything in the one way the codec would say it. */
  ghost predicate NormalForm(e: Event) {
    e.Valid() && IsTrimmed(e.uid) && IsTrimmed(e.kind) && IsTrimmed(e.how) && e.how != ""
    && e.time != 0 && e.start != 0 && e.stale != 0
    && IsTrimmed(e.callsign) && IsTrimmed(e.senderUid) && IsTrimmed(e.remarks) && IsTrimmed(e.chatText)
    && (!e.hasTrack ==> e.courseDeg == 0.0 && e.speedMps == 0.0)
    && (e.chatText == "" ==> e.senderUid == "")
    && (e.chatText != "" ==> e.remarks != "")
    && (IsGeoChatType(e.kind) && e.remarks != "" ==> e.chatText != "")
  }

  /** A how that is given but blank: it is written as it is and read as none. */
  predicate BlankHow(e: Event) {
    e.how != "" && TrimSpace(e.how) == ""
  }

  /** What becomes of an event that is written and read back. */
  function Settled(e: Event, clock: nat): Event {
    var chat, remarks := TrimSpace(e.chatText), TrimSpace(e.remarks);
    var now := OrElse(e.time, clock);
    Event(
      TrimSpace(e.uid), TrimSpace(e.kind), if e.how == "" then DEFAULT_HOW else TrimSpace(e.how),
      now, OrElse(e.start, now), OrElse(e.stale, now + TWO_MINUTES), e.point,
      TrimSpace(e.callsign),
      if chat == "" then "" else TrimSpace(e.senderUid),
      if e.hasTrack then e.courseDeg else 0.0, if e.hasTrack then e.speedMps else 0.0, e.hasTrack,
      if remarks != "" then remarks else chat,
      if chat == "" && IsGeoChatType(TrimSpace(e.kind)) then remarks else chat)
  }

  lemma FirstOfOne(s: string)
    ensures FirstNonEmpty([s, ""]) == TrimSpace(s)
  {
    assert [s, ""][1..] == [""];
    assert [""][1..] == [];
    assert FirstNonEmpty([]) == "";
    assert TrimSpace("") == "";
  }

  lemma HowIsTrimmed()
    ensures TrimSpace(DEFAULT_HOW) == DEFAULT_HOW
  {
    TrimmedEnds(DEFAULT_HOW);
  }

  lemma TrimmedEnds(s: string)
    requires s != "" && !IsSpace(s[0]) && !IsSpace(s[|s| - 1])
    ensures TrimSpace(s) == s
  {}

  lemma RoundTripSettles(e: Event, clock: nat)
    requires e.Valid()
    ensures FromXml(ToXml(e, clock)) == Some(Settled(e, clock))
  {
    hide TrimSpace, FirstNonEmpty, IsGeoChatType;
    TrimOfEmpty();
    HowIsTrimmed();
    TrimIsIdempotent(e.uid);
    TrimIsIdempotent(e.kind);
    TrimIsIdempotent(e.callsign);
    TrimIsIdempotent(e.senderUid);
    TrimIsIdempotent(e.remarks);
    TrimIsIdempotent(e.chatText);
    FirstOfOne(TrimSpace(e.chatText));
    FirstOfOne(TrimSpace(e.senderUid));
  }

  lemma SettledIsNormal(e: Event, clock: nat)
    requires e.Valid() && clock != 0
    ensures NormalForm(Settled(e, clock)) <==> !BlankHow(e)
    ensures Settled(e, clock).Valid()
  {
    hide TrimSpace, IsGeoChatType;
    TrimOfEmpty();
    HowIsTrimmed();
    TrimIsIdempotent(e.uid);
    TrimIsIdempotent(e.kind);
    TrimIsIdempotent(e.how);
    TrimIsIdempotent(e.callsign);
    TrimIsIdempotent(e.senderUid);
    TrimIsIdempotent(e.remarks);
    TrimIsIdempotent(e.chatText);
  }

  /** Writing and reading back changes nothing exactly on events in normal form. */
  lemma RoundTripIsIdentityExactly(e: Event, clock: nat)
    requires e.Valid() && clock != 0
    ensures FromXml(ToXml(e, clock)) == Some(e) <==> NormalForm(e)
  {
    hide TrimSpace, IsGeoChatType, FromXml, ToXml;
    RoundTripSettles(e, clock);
    SettledIsNormal(e, clock);
  }

  /** Every valid event settles into normal form after one round trip, unless its how is blank. */
  lemma RoundTripSettlesExactly(e: Event, clock: nat, later: nat)
    requires e.Valid() && clock != 0 && later != 0
    ensures var once := FromXml(ToXml(e, clock));
      once.Some? && (NormalForm(once.value) <==> !BlankHow(e))
      && (FromXml(ToXml(once.value, later)) == once <==> !BlankHow(e))
  {
    hide TrimSpace, IsGeoChatType, FromXml, ToXml, NormalForm, BlankHow;
    RoundTripSettles(e, clock);
    SettledIsNormal(e, clock);
    RoundTripIsIdentityExactly(Settled(e, clock), later);
  }

  /** A blank how is lost at the first round trip and replaced by the default at the second. */
  lemma BlankHowIsReplaced(e: Event, clock: nat, later: nat)
    requires e.Valid() && clock != 0 && later != 0 && BlankHow(e)
    ensures var once := FromXml(ToXml(e, clock));
      once.Some? && once.value.how == "" && once.value.Valid()
      && var twice := FromXml(ToXml(once.value, later));
      twice.Some? && twice.value.how == DEFAULT_HOW
  {
    hide TrimSpace, IsGeoChatType, FromXml, ToXml;
    RoundTripSettles(e, clock);
    SettledIsNormal(e, clock);
    RoundTripSettles(Settled(e, clock), later);
  }

  /** Such events exist. */
  lemma ABlankHow()
    ensures var e := Event("u", "a-f-G", " ", 1, 1, 1, None, "", "", 0.0, 0.0, false, "", ""); e.Valid() && BlankHow(e)
  {
    hide TrimRight, IsSpace;
    TrimOfEmpty();
    OneLetter();
    OneBlank();
  }

  lemma OneLetter()
    ensures TrimSpace("u") != "" && TrimSpace("a-f-G") != ""
  {
    hide TrimSpace;
    TrimmedEnds("u");
    TrimmedEnds("a-f-G");
  }

  lemma OneBlank()
    ensures TrimSpace(" ") == ""
  {
    assert " "[1..] == "";
    assert TrimLeft(" ") == TrimLeft("");
  }
}
