/** `SystemAlarmMqttHandler`: validates an alarm received on the bus, puts
    it at the front of the alarm store and tells the browsers. */
module SystemAlarmHandling {
  import opened Base
  import opened Json
  import opened Contracts
  import opened Topics
  import opened Alarms

  /** `TryParsePayload`: `type`, `severity`, `message`, then `raisedAt`. */
  function ParseAlarm(document: Option<Json>, parse: DateParser): (r: Result<SystemAlarmPayload, ParseError>)
    ensures document.None? ==> r == Err(InvalidJson)
    ensures document.Some? && !document.value.JObject? ==> r == Err(RootNotObject)
  {
    if document.None? then Err(InvalidJson)
    else if !document.value.JObject? then Err(RootNotObject)
    else
      var root := document.value.members;
      match TryGetString(root, "type")
      case Err(e) => Err(e)
      case Ok(alarmType) =>
        match TryGetString(root, "severity")
        case Err(e) => Err(e)
        case Ok(severity) =>
          match TryGetString(root, "message")
          case Err(e) => Err(e)
          case Ok(message) =>
            match TryGetUtcTimestamp(root, "raisedAt", parse)
            case Err(e) => Err(e)
            case Ok(raisedAt) => Ok(SystemAlarmPayload(alarmType, severity, message, raisedAt))
  }

  /** A text property the handler accepts. */
  predicate TextProperty(root: map<string, Json>, property: string)
  {
    property in root && root[property].JString? && !IsBlank(root[property].text)
  }

  /** An alarm is accepted exactly when the three text properties are
      non-blank strings and `raisedAt` parses with offset zero; the payload
      then carries those values. */
  lemma AcceptsExactlyWellFormed(document: Option<Json>, parse: DateParser)
    ensures ParseAlarm(document, parse).Ok?
            <==> document.Some? && document.value.JObject?
                 && var root := document.value.members;
                 TextProperty(root, "type") && TextProperty(root, "severity") && TextProperty(root, "message")
                 && TextProperty(root, "raisedAt") && IsUtc(parse, root["raisedAt"].text)
    ensures ParseAlarm(document, parse).Ok? ==>
              var root := document.value.members;
              var a := ParseAlarm(document, parse).value;
              a.alarmType == root["type"].text && a.severity == root["severity"].text
              && a.message == root["message"].text && Some(a.raisedAt) == parse(root["raisedAt"].text)
  {
  }

  /** The text properties are checked in the order `type`, `severity`,
      `message`: the first bad one is the one reported. */
  lemma FirstBadTextReported(root: map<string, Json>, parse: DateParser)
    ensures !TextProperty(root, "type") ==>
              ParseAlarm(Some(JObject(root)), parse) == Err(TryGetString(root, "type").error)
    ensures TextProperty(root, "type") && !TextProperty(root, "severity") ==>
              ParseAlarm(Some(JObject(root)), parse) == Err(TryGetString(root, "severity").error)
    ensures TextProperty(root, "type") && TextProperty(root, "severity") && !TextProperty(root, "message") ==>
              ParseAlarm(Some(JObject(root)), parse) == Err(TryGetString(root, "message").error)
  {
  }

  /** The alarm that an accepted payload puts in the store and broadcasts. */
  function UpdateOf(a: SystemAlarmPayload, receivedAt: DateTimeOffset): (u: SystemAlarmUpdate)
    ensures u.alarmType == a.alarmType && u.severity == a.severity && u.message == a.message
    ensures u.raisedAt == a.raisedAt && u.receivedAt == receivedAt
  {
    SystemAlarmUpdate(a.alarmType, a.severity, a.message, a.raisedAt, receivedAt)
  }

  class SystemAlarmMqttHandler {
    const store: AlarmStore
    const topics: MqttTopics
    const hub: Hub

    constructor (store: AlarmStore, topics: MqttTopics, hub: Hub)
      ensures this.store == store && this.topics == topics && this.hub == hub
    {
      this.store := store;
      this.topics := topics;
      this.hub := hub;
    }

    /** `CanHandle`: an ordinal comparison with the alarm topic. */
    predicate CanHandle(topic: string)
    {
      topic == topics.systemAlarm
    }

    /** `HandleAsync`: an accepted alarm goes to the front of the store
        (which hands it on for persistence) and is then broadcast once;
        anything else changes nothing. */
    method Handle(topic: string, document: Option<Json>, isRetained: bool, receivedAt: DateTimeOffset,
                  parse: DateParser)
      modifies store, store.repository, hub
      ensures var r := ParseAlarm(document, parse);
        if CanHandle(topic) && r.Ok? then
          store.alarms == Added(old(store.alarms), UpdateOf(r.value, receivedAt), store.maxCount)
          && (store.maxCount > 0 ==> store.alarms != [] && store.alarms[0] == UpdateOf(r.value, receivedAt))
          && store.repository.inserts == old(store.repository.inserts) + [ToRecord(UpdateOf(r.value, receivedAt))]
          && hub.sent == old(hub.sent) + [AlarmRaised(UpdateOf(r.value, receivedAt))]
        else
          store.alarms == old(store.alarms) && store.repository.inserts == old(store.repository.inserts)
          && hub.sent == old(hub.sent)
      ensures old(store.Valid()) ==> store.Valid()
    {
      if !CanHandle(topic) {
        return;
      }
      var parsed := ParseAlarm(document, parse);
      if parsed.Err? {
        return;
      }
      var update := UpdateOf(parsed.value, receivedAt);
      store.Add(update);
      hub.SendToAll(AlarmRaised(update));
    }
  }
}
