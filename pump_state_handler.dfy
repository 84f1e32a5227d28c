/** `PumpStateMqttHandler`: validates a pump-state payload from the bus,
    stores it and tells the browsers. */
module PumpStateHandling {
  import opened Base
  import opened Json
  import opened Contracts
  import opened Topics
  import opened StateStores

  /** The optional `since` property: absent or `null` means none; anything
      else must be a non-blank string that parses with offset zero. A parse
      failure and a non-zero offset give the same error. */
  function TryGetSince(root: map<string, Json>, parse: DateParser): (r: Result<Option<DateTimeOffset>, ParseError>)
    ensures ("since" !in root || root["since"].JNull?) ==> r == Ok(None)
    ensures r.Ok? && r.value.Some? ==>
              "since" in root && root["since"].JString? && !IsBlank(root["since"].text)
              && IsUtc(parse, root["since"].text) && Some(r.value.value) == parse(root["since"].text)
    ensures "since" in root && !root["since"].JNull? && !root["since"].JString? ==> r == Err(NotTimestampString("since"))
    ensures ("since" in root && root["since"].JString? && !IsBlank(root["since"].text)
              && !IsUtc(parse, root["since"].text)) ==> r == Err(InvalidTimestamp("since"))
  {
    if "since" !in root then Ok(None)
    else match root["since"]
      case JNull => Ok(None)
      case JString(text) =>
        if IsBlank(text) then Err(Blank("since"))
        else if !IsUtc(parse, text) then Err(InvalidTimestamp("since"))
        else Ok(Some(parse(text).value))
      case _ => Err(NotTimestampString("since"))
  }

  /** The optional `lastRequestId` property: absent or `null` means none, a
      string (even an empty one) is kept, any other kind is rejected. */
  function TryGetRequestId(root: map<string, Json>): (r: Result<Option<string>, ParseError>)
    ensures r.Err? <==> "lastRequestId" in root && !root["lastRequestId"].JString? && !root["lastRequestId"].JNull?
    ensures r.Err? ==> r.error == RequestIdNotString
    ensures r.Ok? && r.value.Some? <==> "lastRequestId" in root && root["lastRequestId"].JString?
    ensures r.Ok? && r.value.Some? ==> r.value.value == root["lastRequestId"].text
  {
    if "lastRequestId" !in root then Ok(None)
    else match root["lastRequestId"]
      case JString(text) => Ok(Some(text))
      case JNull => Ok(None)
      case _ => Err(RequestIdNotString)
  }

  /** `TryParsePayload`: the checks in the handler's order, the first that
      fails giving the error. */
  function ParsePumpState(document: Option<Json>, parse: DateParser): (r: Result<PumpStatePayload, ParseError>)
    ensures document.None? ==> r == Err(InvalidJson)
    ensures document.Some? && !document.value.JObject? ==> r == Err(RootNotObject)
    ensures r.Ok? ==> r.value.running ==> r.value.since.Some?
  {
    if document.None? then Err(InvalidJson)
    else if !document.value.JObject? then Err(RootNotObject)
    else
      var root := document.value.members;
      match TryGetBool(root, "running")
      case Err(e) => Err(e)
      case Ok(running) =>
        match TryGetSince(root, parse)
        case Err(e) => Err(e)
        case Ok(since) =>
          if running && since.None? then Err(SinceRequired)
          else match TryGetInt(root, "lastRunSeconds")
            case Err(e) => Err(e)
            case Ok(lastRunSeconds) =>
              match TryGetRequestId(root)
              case Err(e) => Err(e)
              case Ok(lastRequestId) =>
                match TryGetUtcTimestamp(root, "reportedAt", parse)
                case Err(e) => Err(e)
                case Ok(reportedAt) => Ok(PumpStatePayload(running, since, lastRunSeconds, lastRequestId, reportedAt))
  }

  /** A `since` the handler accepts, as a condition on the document. */
  predicate SinceAcceptable(root: map<string, Json>, running: bool, parse: DateParser)
  {
    if "since" !in root || root["since"].JNull? then !running
    else root["since"].JString? && !IsBlank(root["since"].text) && IsUtc(parse, root["since"].text)
  }

  /** What an accepted payload looks like, independently of the order of the
      checks. `lastRunSeconds` has to fit 32 bits, but its sign is free. */
  predicate WellFormed(root: map<string, Json>, parse: DateParser)
  {
    && "running" in root && root["running"].JBool?
    && SinceAcceptable(root, root["running"].b, parse)
    && "lastRunSeconds" in root && IsInt32(root["lastRunSeconds"])
    && ("lastRequestId" in root ==> root["lastRequestId"].JString? || root["lastRequestId"].JNull?)
    && "reportedAt" in root && root["reportedAt"].JString? && !IsBlank(root["reportedAt"].text)
    && IsUtc(parse, root["reportedAt"].text)
  }

  /** A payload is accepted exactly when the document is a well-formed
      object, and then every field carries the document's value. */
  lemma AcceptsExactlyWellFormed(document: Option<Json>, parse: DateParser)
    ensures ParsePumpState(document, parse).Ok?
            <==> document.Some? && document.value.JObject? && WellFormed(document.value.members, parse)
    ensures ParsePumpState(document, parse).Ok? ==>
              var root := document.value.members;
              var p := ParsePumpState(document, parse).value;
              && p.running == root["running"].b
              && (p.since.Some? <==> "since" in root && root["since"].JString?)
              && (p.since.Some? ==> Some(p.since.value) == parse(root["since"].text))
              && p.lastRunSeconds == root["lastRunSeconds"].integral.value
              && (p.lastRequestId.Some? <==> "lastRequestId" in root && root["lastRequestId"].JString?)
              && Some(p.reportedAt) == parse(root["reportedAt"].text) && p.reportedAt.offsetMinutes == 0
  {
  }

  /** `running` must be literally `true` or `false`: a missing value is
      reported as missing, and a string, number or `null` as not a boolean. */
  lemma RunningMustBeBoolean(root: map<string, Json>, parse: DateParser)
    requires "running" !in root || !root["running"].JBool?
    ensures "running" !in root ==> ParsePumpState(Some(JObject(root)), parse) == Err(Missing("running"))
    ensures "running" in root ==> ParsePumpState(Some(JObject(root)), parse) == Err(NotBoolean("running"))
  {
  }

  /** A running pump must say since when; a stopped one may send `null`. */
  lemma SinceRequiredOnlyWhenRunning(root: map<string, Json>, parse: DateParser)
    requires "running" in root && root["running"].JBool?
    requires "since" !in root || root["since"].JNull?
    ensures root["running"].b ==> ParsePumpState(Some(JObject(root)), parse) == Err(SinceRequired)
    ensures !root["running"].b && WellFormed(root, parse) ==> ParsePumpState(Some(JObject(root)), parse).Ok?
  {
  }

  /** A `reportedAt` written with a non-zero offset, such as `+01:00`, is
      rejected once the earlier fields are fine. */
  lemma NonUtcReportedAtRejected(root: map<string, Json>, parse: DateParser)
    requires "running" in root && root["running"].JBool? && SinceAcceptable(root, root["running"].b, parse)
    requires "lastRunSeconds" in root && IsInt32(root["lastRunSeconds"])
    requires "lastRequestId" in root ==> root["lastRequestId"].JString? || root["lastRequestId"].JNull?
    requires "reportedAt" in root && root["reportedAt"].JString? && !IsBlank(root["reportedAt"].text)
    requires parse(root["reportedAt"].text).Some? && parse(root["reportedAt"].text).value.offsetMinutes != 0
    ensures ParsePumpState(Some(JObject(root)), parse) == Err(NotUtc("reportedAt"))
  {
  }

  /** The browser update for an accepted payload. */
  function UpdateOf(p: PumpStatePayload, receivedAt: DateTimeOffset): (u: PumpStateUpdate)
    ensures u.running == p.running && u.since == p.since && u.lastRunSeconds == p.lastRunSeconds
    ensures u.lastRequestId == p.lastRequestId && u.reportedAt == p.reportedAt && u.receivedAt == receivedAt
  {
    PumpStateUpdate(p.running, p.since, p.lastRunSeconds, p.lastRequestId, p.reportedAt, receivedAt)
  }

  class PumpStateMqttHandler {
    const store: PumpStateStore
    const topics: MqttTopics
    const hub: Hub

    constructor (store: PumpStateStore, topics: MqttTopics, hub: Hub)
      ensures this.store == store && this.topics == topics && this.hub == hub
    {
      this.store := store;
      this.topics := topics;
      this.hub := hub;
    }

    /** `CanHandle`: an ordinal comparison with the pump-state topic. */
    predicate CanHandle(topic: string)
    {
      topic == topics.pumpState
    }

    /** `HandleAsync`: one store update and one broadcast for an accepted
        payload on the pump-state topic, nothing otherwise. */
    method Handle(topic: string, document: Option<Json>, isRetained: bool, receivedAt: DateTimeOffset,
                  parse: DateParser)
      modifies store, hub
      ensures var r := ParsePumpState(document, parse);
        if CanHandle(topic) && r.Ok? then
          store.latest == Some(PumpStateSnapshot(r.value, receivedAt))
          && hub.sent == old(hub.sent) + [PumpStateUpdated(UpdateOf(r.value, receivedAt))]
        else
          store.latest == old(store.latest) && hub.sent == old(hub.sent)
    {
      if !CanHandle(topic) {
        return;
      }
      var parsed := ParsePumpState(document, parse);
      if parsed.Err? {
        return;
      }
      store.Update(parsed.value, receivedAt);
      hub.SendToAll(PumpStateUpdated(UpdateOf(parsed.value, receivedAt)));
    }
  }
}
