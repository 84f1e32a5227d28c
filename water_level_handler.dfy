/** `WaterLevelMqttHandler`: validates a water-level payload from the bus,
    stores it and tells the browsers. The document is the outcome of
    `JsonDocument.Parse`: `None` when the bytes are not JSON. */
module WaterLevelHandling {
  import opened Base
  import opened Json
  import opened Contracts
  import opened Topics
  import opened StateStores

  /** `ExpectedSensorCount`. */
  const EXPECTED_SENSOR_COUNT: nat := 4

  /** The values of `items` when every one of them is a JSON boolean. */
  function Booleans(items: seq<Json>): (r: Option<seq<bool>>)
    ensures r.Some? <==> forall i :: 0 <= i < |items| ==> items[i].JBool?
    ensures r.Some? ==> |r.value| == |items| && forall i :: 0 <= i < |items| ==> r.value[i] == items[i].b
    decreases |items|
  {
    if items == [] then Some([])
    else if !items[0].JBool? then None
    else
      var rest := Booleans(items[1..]);
      if rest.None? then None else Some([items[0].b] + rest.value)
  }

  /** The checks of `TryParsePayload`, in the order the handler makes them;
      the first that fails gives the error. */
  function ParseWaterLevel(document: Option<Json>, parse: DateParser): Result<WaterLevelStatePayload, ParseError>
  {
    if document.None? then Err(InvalidJson)
    else if !document.value.JObject? then Err(RootNotObject)
    else
      var root := document.value.members;
      match TryGetInt(root, "levelPercent")
      case Err(e) => Err(e)
      case Ok(level) =>
        if level < 0 || level > 100 then Err(LevelOutOfRange)
        else if "sensors" !in root then Err(Missing("sensors"))
        else if !root["sensors"].JArray? then Err(SensorsNotArray)
        else match Booleans(root["sensors"].items)
          case None => Err(SensorsNotBoolean)
          case Some(sensors) =>
            if |sensors| != EXPECTED_SENSOR_COUNT then Err(SensorsWrongCount)
            else match TryGetUtcTimestamp(root, "measuredAt", parse)
              case Err(e) => Err(e)
              case Ok(measuredAt) =>
                match TryGetUtcTimestamp(root, "reportedAt", parse)
                case Err(e) => Err(e)
                case Ok(reportedAt) => Ok(WaterLevelStatePayload(level, sensors, measuredAt, reportedAt))
  }

  /** A timestamp property the handler accepts. */
  predicate UtcProperty(root: map<string, Json>, property: string, parse: DateParser)
  {
    property in root && root[property].JString? && !IsBlank(root[property].text)
    && IsUtc(parse, root[property].text)
  }

  /** What an accepted payload looks like, stated independently of the order
      of the checks. */
  predicate WellFormed(root: map<string, Json>, parse: DateParser)
  {
    && "levelPercent" in root && IsInt32(root["levelPercent"])
    && 0 <= root["levelPercent"].integral.value <= 100
    && "sensors" in root && root["sensors"].JArray?
    && |root["sensors"].items| == EXPECTED_SENSOR_COUNT
    && (forall i :: 0 <= i < |root["sensors"].items| ==> root["sensors"].items[i].JBool?)
    && UtcProperty(root, "measuredAt", parse) && UtcProperty(root, "reportedAt", parse)
  }

  /** A payload is accepted exactly when the document is an object of the
      expected shape, and then it carries the document's values: the level,
      the four sensor booleans in order and the two timestamps as parsed. */
  lemma AcceptsExactlyWellFormed(document: Option<Json>, parse: DateParser)
    ensures ParseWaterLevel(document, parse).Ok?
            <==> document.Some? && document.value.JObject? && WellFormed(document.value.members, parse)
    ensures ParseWaterLevel(document, parse).Ok? ==>
              var root := document.value.members;
              var p := ParseWaterLevel(document, parse).value;
              && p.levelPercent == root["levelPercent"].integral.value
              && |p.sensors| == EXPECTED_SENSOR_COUNT
              && (forall i :: 0 <= i < EXPECTED_SENSOR_COUNT ==> p.sensors[i] == root["sensors"].items[i].b)
              && Some(p.measuredAt) == parse(root["measuredAt"].text) && p.measuredAt.offsetMinutes == 0
              && Some(p.reportedAt) == parse(root["reportedAt"].text) && p.reportedAt.offsetMinutes == 0
  {
  }

  /** A sensor element that is not a boolean is reported as such even when
      the array also has the wrong length: the element check comes first. */
  lemma NonBooleanSensorBeforeCount(root: map<string, Json>, parse: DateParser, k: nat)
    requires "levelPercent" in root && IsInt32(root["levelPercent"])
    requires 0 <= root["levelPercent"].integral.value <= 100
    requires "sensors" in root && root["sensors"].JArray?
    requires k < |root["sensors"].items| && !root["sensors"].items[k].JBool?
    ensures ParseWaterLevel(Some(JObject(root)), parse) == Err(SensorsNotBoolean)
  {
  }

  /** The level range is checked before anything about the sensors. */
  lemma LevelCheckedBeforeSensors(root: map<string, Json>, parse: DateParser)
    requires "levelPercent" in root && IsInt32(root["levelPercent"])
    requires !(0 <= root["levelPercent"].integral.value <= 100)
    ensures ParseWaterLevel(Some(JObject(root)), parse) == Err(LevelOutOfRange)
  {
  }

  /** A root that is not an object is rejected, whatever it holds. */
  lemma RootMustBeObject(v: Json, parse: DateParser)
    requires !v.JObject?
    ensures ParseWaterLevel(Some(v), parse) == Err(RootNotObject)
  {
  }

  /** `TryParsePayload`. The sensor values are copied into a fresh `bool[]`
      one element at a time; the first element that is not a boolean ends
      the parse. */
  method TryParsePayload(document: Option<Json>, parse: DateParser) returns (r: Result<WaterLevelStatePayload, ParseError>)
    ensures r == ParseWaterLevel(document, parse)
  {
    if document.None? {
      return Err(InvalidJson);
    }
    if !document.value.JObject? {
      return Err(RootNotObject);
    }
    var root := document.value.members;
    var level := TryGetInt(root, "levelPercent");
    if level.Err? {
      return Err(level.error);
    }
    if level.value < 0 || level.value > 100 {
      return Err(LevelOutOfRange);
    }
    if "sensors" !in root {
      return Err(Missing("sensors"));
    }
    var element := root["sensors"];
    if !element.JArray? {
      return Err(SensorsNotArray);
    }
    var items := element.items;
    var sensors := new bool[|items|];
    for i := 0 to sensors.Length
      invariant forall k :: 0 <= k < i ==> items[k].JBool? && sensors[k] == items[k].b
    {
      if !items[i].JBool? {
        return Err(SensorsNotBoolean);
      }
      sensors[i] := items[i].b;
    }
    var values := Booleans(items);
    assert values.Some?;
    assert values.value == sensors[..] by {
      forall k | 0 <= k < |items| ensures values.value[k] == sensors[k] { }
    }
    if sensors.Length != EXPECTED_SENSOR_COUNT {
      return Err(SensorsWrongCount);
    }
    var measuredAt := TryGetUtcTimestamp(root, "measuredAt", parse);
    if measuredAt.Err? {
      return Err(measuredAt.error);
    }
    var reportedAt := TryGetUtcTimestamp(root, "reportedAt", parse);
    if reportedAt.Err? {
      return Err(reportedAt.error);
    }
    r := Ok(WaterLevelStatePayload(level.value, sensors[..], measuredAt.value, reportedAt.value));
  }

  /** The browser update for an accepted payload. */
  function UpdateOf(p: WaterLevelStatePayload, receivedAt: DateTimeOffset): (u: WaterLevelUpdate)
    ensures u.levelPercent == p.levelPercent && u.sensors == p.sensors
    ensures u.measuredAt == p.measuredAt && u.reportedAt == p.reportedAt && u.receivedAt == receivedAt
  {
    WaterLevelUpdate(p.levelPercent, p.sensors, p.measuredAt, p.reportedAt, receivedAt)
  }

  class WaterLevelMqttHandler {
    const store: WaterLevelStateStore
    const topics: MqttTopics
    const hub: Hub

    constructor (store: WaterLevelStateStore, topics: MqttTopics, hub: Hub)
      ensures this.store == store && this.topics == topics && this.hub == hub
    {
      this.store := store;
      this.topics := topics;
      this.hub := hub;
    }

    /** `CanHandle`: an ordinal comparison with the water-level topic. */
    predicate CanHandle(topic: string)
    {
      topic == topics.waterLevelState
    }

    /** `HandleAsync`. A message on another topic, or one that does not
        parse, changes nothing; an accepted one replaces the store's
        snapshot and is broadcast once. `isRetained` is only logged. */
    method Handle(topic: string, document: Option<Json>, isRetained: bool, receivedAt: DateTimeOffset,
                  parse: DateParser)
      modifies store, hub
      ensures var r := ParseWaterLevel(document, parse);
        if CanHandle(topic) && r.Ok? then
          store.latest == Some(WaterLevelSnapshot(r.value, receivedAt))
          && hub.sent == old(hub.sent) + [WaterLevelUpdated(UpdateOf(r.value, receivedAt))]
        else
          store.latest == old(store.latest) && hub.sent == old(hub.sent)
    {
      if !CanHandle(topic) {
        return;
      }
      var parsed := TryParsePayload(document, parse);
      if parsed.Err? {
        return;
      }
      store.Update(parsed.value, receivedAt);
      hub.SendToAll(WaterLevelUpdated(UpdateOf(parsed.value, receivedAt)));
    }
  }
}
