/**
 Outbox events and the JSON envelope that carries them through Kafka.

 A Kafka value is modelled after JSON.parse has been applied to it: it is
 absent, not JSON, or a JSON value.
 */
module EventEnvelope {
  import opened Prelude

  datatype Json =
    | JNull
    | JBool(b: bool)
    | JNumber(value: real)
    | JString(text: string)
    | JArray(items: seq<Json>)
    | JObject(fields: map<string, Json>)

  datatype Wire = NoValue | Garbled | Text(json: Json)

  /** A rendered timestamp (`toISOString`), never empty. */
  type Timestamp = s: string | s != "" witness "1970-01-01T00:00:00.000Z"

  /** The immutable columns of an outbox row. */
  datatype RelayRow = RelayRow(
    eventId: string,
    eventType: string,
    eventVersion: int,
    aggregateId: string,
    payload: Json,
    topic: string,
    correlationId: string,
    causationId: Option<string>,
    occurredAt: Timestamp)

  datatype Envelope = Envelope(
    eventId: string,
    eventType: string,
    eventVersion: int,
    aggregateId: string,
    occurredAt: string,
    correlationId: string,
    causationId: Option<string>,
    payload: Json)

  /** One message of a Kafka batch. */
  datatype Message = Message(topic: string, key: string, value: Wire)

  const BIDDING := "bidding_events"
  const DOMAIN := "domain_events"
  const DASHBOARD := "dashboard_updates"
  const ASYNC_DLQ := "async_events_dlq"
  const RELAY_TOPICS := {BIDDING, DOMAIN, DASHBOARD, ASYNC_DLQ}

  // ---------------------------------------------------------- validation

  predicate IsLower(c: char) {
    'a' <= c <= 'z'
  }

  predicate IsWord(c: char) {
    IsLower(c) || IsDigit(c) || c == '_'
  }

  /** `v[1-9]\d*` */
  predicate IsVersionSuffix(v: string) {
    && |v| >= 2
    && v[0] == 'v'
    && '1' <= v[1] <= '9'
    && forall i :: 2 <= i < |v| ==> IsDigit(v[i])
  }

  /** `[a-z][a-z0-9_]*(?:\.[a-z0-9_]+)*` */
  predicate IsDottedName(s: string) {
    && |s| >= 1
    && IsLower(s[0])
    && (forall i :: 0 <= i < |s| ==> IsWord(s[i]) || s[i] == '.')
    && (forall i :: 0 <= i < |s| && s[i] == '.' ==> i + 1 < |s| && s[i + 1] != '.')
  }

  /** A dotted lower-case name, a dot and a positive version. */
  predicate IsEventType(s: string) {
    exists d :: 0 <= d < |s| && s[d] == '.' && IsDottedName(s[..d]) && IsVersionSuffix(s[d + 1..])
  }

  datatype InvalidReason = UnsupportedTopic | InvalidEventType | InvalidEventVersion | InvalidEnvelope | InvalidPayload

  function ValidateRelayRow(row: RelayRow): (reason: Option<InvalidReason>)
  {
    if row.topic !in RELAY_TOPICS then Some(UnsupportedTopic)
    else if !IsEventType(row.eventType) then Some(InvalidEventType)
    else if row.eventVersion < 1 then Some(InvalidEventVersion)
    else if row.aggregateId == "" || row.correlationId == "" || row.eventId == "" then Some(InvalidEnvelope)
    else if !row.payload.JObject? then Some(InvalidPayload)
    else None
  }

  predicate IsValid(row: RelayRow) {
    ValidateRelayRow(row).None?
  }

  // ------------------------------------------ the regular expression, exactly

  /** The pieces with dots between them. */
  function Join(pieces: seq<string>): string
    requires |pieces| > 0
  {
    if |pieces| == 1 then pieces[0] else Join(pieces[..|pieces| - 1]) + "." + pieces[|pieces| - 1]
  }

  /** `[a-z0-9_]+` */
  ghost predicate IsPiece(p: string) {
    |p| > 0 && forall k :: 0 <= k < |p| ==> 'a' <= p[k] <= 'z' || '0' <= p[k] <= '9' || p[k] == '_'
  }

  ghost predicate AreNamePieces(pieces: seq<string>) {
    && |pieces| > 0
    && (forall k :: 0 <= k < |pieces| ==> IsPiece(pieces[k]))
    && 'a' <= pieces[0][0] <= 'z'
  }

  /** `[1-9]\d*` */
  ghost predicate IsVersion(version: string) {
    |version| > 0 && '1' <= version[0] <= '9' && forall k :: 0 <= k < |version| ==> '0' <= version[k] <= '9'
  }

  /** `[a-z][a-z0-9_]*(?:\.[a-z0-9_]+)*\.v[1-9]\d*` */
  ghost predicate MatchesEventType(s: string) {
    exists pieces, version :: AreNamePieces(pieces) && IsVersion(version) && s == Join(pieces) + (".v" + version)
  }

  lemma {:induction false} JoinIsDotted(pieces: seq<string>)
    requires AreNamePieces(pieces)
    ensures IsDottedName(Join(pieces))
    decreases |pieces|
  {
    if |pieces| > 1 {
      JoinIsDotted(pieces[..|pieces| - 1]);
      DottedMore(Join(pieces[..|pieces| - 1]), pieces[|pieces| - 1]);
    }
  }

  lemma DottedMore(name: string, piece: string)
    requires IsDottedName(name) && IsPiece(piece)
    ensures IsDottedName(name + "." + piece)
  {
    var s := name + "." + piece;
    forall i | 0 <= i < |s|
      ensures IsWord(s[i]) || s[i] == '.'
      ensures s[i] == '.' ==> i + 1 < |s| && s[i + 1] != '.'
    {
      if i < |name| {
        assert s[i] == name[i];
      } else if i > |name| {
        assert s[i] == piece[i - |name| - 1];
      } else {
        assert s[i + 1] == piece[0];
      }
    }
  }

  /** The place of the last dot, or -1. */
  function LastDot(s: string): (d: int)
    ensures -1 <= d < |s|
    ensures d >= 0 ==> s[d] == '.'
    ensures forall i :: d < i < |s| ==> s[i] != '.'
  {
    if s == "" then -1
    else if s[|s| - 1] == '.' then |s| - 1
    else LastDot(s[..|s| - 1])
  }

  lemma {:induction false} DottedIsJoin(s: string) returns (pieces: seq<string>)
    requires IsDottedName(s)
    ensures AreNamePieces(pieces) && Join(pieces) == s
    decreases |s|
  {
    var d := LastDot(s);
    if d < 0 {
      pieces := [s];
    } else {
      var front, piece := s[..d], s[d + 1..];
      assert forall i :: 0 <= i < d ==> front[i] == s[i];
      assert forall i :: 0 <= i < |piece| ==> piece[i] == s[d + 1 + i];
      var before := DottedIsJoin(front);
      pieces := before + [piece];
      assert pieces[..|pieces| - 1] == before;
      assert s == front + "." + piece;
    }
  }

  lemma SuffixIsVersion(suffix: string) returns (version: string)
    requires IsVersionSuffix(suffix)
    ensures IsVersion(version) && "." + suffix == ".v" + version
  {
    version := suffix[1..];
    assert suffix == "v" + version;
  }

  lemma EventTypeMatches(s: string, d: nat)
    requires d < |s| && s[d] == '.' && IsDottedName(s[..d]) && IsVersionSuffix(s[d + 1..])
    ensures MatchesEventType(s)
  {
    var pieces := DottedIsJoin(s[..d]);
    var version := SuffixIsVersion(s[d + 1..]);
    assert s == s[..d] + ("." + s[d + 1..]);
  }

  lemma SuffixFine(name: string, version: string, s: string)
    requires IsVersion(version) && s == name + (".v" + version)
    ensures s[..|name|] == name && s[|name|] == '.' && IsVersionSuffix(s[|name| + 1..])
  {
    assert s[|name| + 1..] == "v" + version;
  }

  /** Event types are exactly the texts that the regular expression matches. */
  lemma EventTypesExactly(s: string)
    ensures IsEventType(s) <==> MatchesEventType(s)
  {
    if IsEventType(s) {
      var d :| 0 <= d < |s| && s[d] == '.' && IsDottedName(s[..d]) && IsVersionSuffix(s[d + 1..]);
      EventTypeMatches(s, d);
    }
    if MatchesEventType(s) {
      var pieces, version :| AreNamePieces(pieces) && IsVersion(version) && s == Join(pieces) + (".v" + version);
      JoinIsDotted(pieces);
      SuffixFine(Join(pieces), version, s);
    }
  }

  /** Which rows are valid. */
  lemma ValidExactly(row: RelayRow)
    ensures IsValid(row) <==>
            && row.topic in {"bidding_events", "domain_events", "dashboard_updates", "async_events_dlq"}
            && MatchesEventType(row.eventType)
            && row.eventVersion >= 1
            && row.aggregateId != "" && row.correlationId != "" && row.eventId != ""
            && row.payload.JObject?
  {
    EventTypesExactly(row.eventType);
  }

  // ---------------------------------------------- creating and parsing

  /** `createEventEnvelope`: an empty causation id is dropped. */
  function CreateEventEnvelope(row: RelayRow): Envelope {
    Envelope(row.eventId, row.eventType, row.eventVersion, row.aggregateId, row.occurredAt, row.correlationId,
             if row.causationId == Some("") then None else row.causationId,
             row.payload)
  }

  /** The object that JSON.stringify writes. */
  function ToJson(e: Envelope): Json {
    var fields := map[
      "eventId" := JString(e.eventId),
      "eventType" := JString(e.eventType),
      "eventVersion" := JNumber(e.eventVersion as real),
      "aggregateId" := JString(e.aggregateId),
      "occurredAt" := JString(e.occurredAt),
      "correlationId" := JString(e.correlationId),
      "payload" := e.payload];
    JObject(if e.causationId.Some? then fields["causationId" := JString(e.causationId.value)] else fields)
  }

  function MessageOf(row: RelayRow): Message {
    Message(row.topic, row.aggregateId, Text(ToJson(CreateEventEnvelope(row))))
  }

  predicate HasText(fields: map<string, Json>, field: string) {
    field in fields && fields[field].JString? && fields[field].text != ""
  }

  predicate HasVersion(fields: map<string, Json>) {
    && "eventVersion" in fields
    && fields["eventVersion"].JNumber?
    && var v := fields["eventVersion"].value; v == v.Floor as real && v.Floor >= 1
  }

  /** `parseEventEnvelope`, the gate of both consumers. */
  function ParseEventEnvelope(value: Wire): (r: Settlement<Envelope>)
  {
    if !value.Text? || !value.json.JObject? then Rejected
    else
      var fields := value.json.fields;
      if !(HasText(fields, "eventId") && HasText(fields, "eventType") && HasText(fields, "aggregateId")
           && HasText(fields, "occurredAt") && HasText(fields, "correlationId")) then Rejected
      else if !HasVersion(fields) then Rejected
      else if "payload" !in fields || !fields["payload"].JObject? then Rejected
      else
        Fulfilled(Envelope(
          fields["eventId"].text,
          fields["eventType"].text,
          fields["eventVersion"].value.Floor,
          fields["aggregateId"].text,
          fields["occurredAt"].text,
          fields["correlationId"].text,
          if "causationId" in fields && fields["causationId"].JString? then Some(fields["causationId"].text) else None,
          fields["payload"]))
  }

  /** What the gate promises about every envelope it lets through. */
  ghost predicate WellFormed(e: Envelope) {
    && e.eventId != "" && e.eventType != "" && e.aggregateId != "" && e.occurredAt != "" && e.correlationId != ""
    && e.eventVersion >= 1
    && e.payload.JObject?
  }

  /** An envelope survives serialisation exactly if it is well formed; nothing else gets through. */
  lemma EnvelopeRoundTrip(e: Envelope)
    ensures WellFormed(e) <==> ParseEventEnvelope(Text(ToJson(e))).Fulfilled?
    ensures WellFormed(e) ==> ParseEventEnvelope(Text(ToJson(e))) == Fulfilled(e)
  {
    var fields := ToJson(e).fields;
    assert fields["eventId"] == JString(e.eventId);
    assert fields["eventVersion"] == JNumber(e.eventVersion as real);
    assert (e.eventVersion as real).Floor == e.eventVersion;
  }

  /** Parsing forgets only unknown fields: what it returns parses to itself. */
  lemma ParseIsIdempotent(value: Wire)
    requires ParseEventEnvelope(value).Fulfilled?
    ensures WellFormed(ParseEventEnvelope(value).value)
    ensures ParseEventEnvelope(Text(ToJson(ParseEventEnvelope(value).value))) == ParseEventEnvelope(value)
  {
    EnvelopeRoundTrip(ParseEventEnvelope(value).value);
  }

  /** Exactly the objects that agree with some well-formed envelope on the needed fields are accepted, whatever else they hold. */
  lemma AcceptedExactly(value: Wire)
    ensures ParseEventEnvelope(value).Fulfilled? <==>
            && value.Text? && value.json.JObject?
            && exists e :: WellFormed(e) && Agrees(value.json.fields, e)
    ensures ParseEventEnvelope(value).Fulfilled? ==>
              var e, fields := ParseEventEnvelope(value).value, value.json.fields;
              && Agrees(fields, e)
              && e.causationId == if "causationId" in fields && fields["causationId"].JString?
                                  then Some(fields["causationId"].text) else None
  {
    var r := ParseEventEnvelope(value);
    if r.Fulfilled? {
      assert WellFormed(r.value) && Agrees(value.json.fields, r.value);
    }
    if value.Text? && value.json.JObject? && exists e :: WellFormed(e) && Agrees(value.json.fields, e) {
      var e :| WellFormed(e) && Agrees(value.json.fields, e);
      assert (e.eventVersion as real).Floor == e.eventVersion;
    }
  }

  ghost predicate Agrees(fields: map<string, Json>, e: Envelope) {
    && "eventId" in fields && fields["eventId"] == JString(e.eventId)
    && "eventType" in fields && fields["eventType"] == JString(e.eventType)
    && "eventVersion" in fields && fields["eventVersion"] == JNumber(e.eventVersion as real)
    && "aggregateId" in fields && fields["aggregateId"] == JString(e.aggregateId)
    && "occurredAt" in fields && fields["occurredAt"] == JString(e.occurredAt)
    && "correlationId" in fields && fields["correlationId"] == JString(e.correlationId)
    && "payload" in fields && fields["payload"] == e.payload
  }

  lemma EventTypeNotEmpty(s: string)
    requires IsEventType(s)
    ensures s != ""
  {
  }

  /** Every message the relay publishes is accepted by the consumers and gives the row's fields back. */
  lemma RelayedRowIsAccepted(row: RelayRow)
    requires IsValid(row)
    ensures MessageOf(row).topic == row.topic && MessageOf(row).key == row.aggregateId
    ensures var r := ParseEventEnvelope(MessageOf(row).value);
            && r.Fulfilled?
            && r.value.eventId == row.eventId
            && r.value.eventType == row.eventType
            && r.value.eventVersion == row.eventVersion
            && r.value.aggregateId == row.aggregateId
            && r.value.occurredAt == row.occurredAt
            && r.value.correlationId == row.correlationId
            && r.value.payload == row.payload
            && r.value.causationId == if row.causationId == Some("") then None else row.causationId
  {
    EventTypeNotEmpty(row.eventType);
    EnvelopeRoundTrip(CreateEventEnvelope(row));
  }
}
