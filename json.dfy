/** The JSON tree that `System.Text.Json.JsonDocument` exposes to the MQTT
    handlers, the reasons a payload is rejected, and the property readers
    (`TryGetInt`, `TryGetBool`, `TryGetString`, `TryGetUtcTimestamp`) that the
    three handlers share. Each handler file carries its own copy of these
    private helpers; the copies are identical and are modelled once here. */
module Json {
  import opened Base

  /** A JSON value. An object is a map from property name to value (a
      document that repeats a property name is not modelled). A number keeps
      `Some(v)` when its literal is an optional minus sign followed by digits
      (so `TryGetInt32` can read it when `v` fits 32 bits) and `None` for a
      literal with a fraction or an exponent. */
  datatype Json =
    | JObject(members: map<string, Json>)
    | JArray(items: seq<Json>)
    | JString(text: string)
    | JNumber(integral: Option<int>)
    | JBool(b: bool)
    | JNull

  /** `DateTimeOffset.TryParse` as seen by the handlers: it depends on the
      runtime's culture and time zone, so the model takes it as a parameter. */
  type DateParser = string -> Option<DateTimeOffset>

  /** Why a payload was rejected; one constructor per distinct message the
      handlers log. */
  datatype ParseError =
    | InvalidJson                         // "JSON parse error: ..."
    | RootNotObject                       // "Payload root must be a JSON object."
    | Missing(property: string)           // "Missing required property: p."
    | NotInteger(property: string)        // "p must be an integer."
    | NotBoolean(property: string)        // "p must be a boolean."
    | NotString(property: string)         // "p must be a string."
    | NotTimestampString(property: string)// "p must be a UTC timestamp string."
    | Blank(property: string)             // "p must not be empty."
    | InvalidTimestamp(property: string)  // "p must be a valid UTC timestamp."
    | NotUtc(property: string)            // "p must be in UTC (use Z suffix)."
    | LevelOutOfRange                     // "levelPercent must be between 0 and 100."
    | SensorsNotArray                     // "sensors must be an array of booleans."
    | SensorsNotBoolean                   // "sensors must contain only boolean values."
    | SensorsWrongCount                   // "sensors must contain exactly 4 values."
    | SinceRequired                       // "since is required when running=true."
    | RequestIdNotString                  // "lastRequestId must be a string."

  /** `JsonElement.TryGetInt32` on an element. */
  predicate IsInt32(v: Json)
  {
    v.JNumber? && v.integral.Some? && INT32_MIN <= v.integral.value <= INT32_MAX
  }

  /** A timestamp the handlers accept: parsed, and written with offset zero. */
  predicate IsUtc(parse: DateParser, text: string)
  {
    parse(text).Some? && parse(text).value.offsetMinutes == 0
  }

  /** `TryGetInt(root, property, ...)`: present, a JSON number, and readable
      as a 32-bit integer. */
  function TryGetInt(root: map<string, Json>, property: string): (r: Result<int32, ParseError>)
    ensures r.Ok? <==> property in root && IsInt32(root[property])
    ensures r.Ok? ==> r.value == root[property].integral.value
    ensures property !in root ==> r == Err(Missing(property))
    ensures property in root && !IsInt32(root[property]) ==> r == Err(NotInteger(property))
  {
    if property !in root then Err(Missing(property))
    else
      var e := root[property];
      if !e.JNumber? || e.integral.None? || !(INT32_MIN <= e.integral.value <= INT32_MAX)
      then Err(NotInteger(property))
      else Ok(e.integral.value)
  }

  /** `TryGetBool(root, property, ...)`: present and literally `true` or
      `false`; strings, numbers and null are rejected. */
  function TryGetBool(root: map<string, Json>, property: string): (r: Result<bool, ParseError>)
    ensures r.Ok? <==> property in root && root[property].JBool?
    ensures r.Ok? ==> r.value == root[property].b
    ensures property !in root ==> r == Err(Missing(property))
    ensures property in root && !root[property].JBool? ==> r == Err(NotBoolean(property))
  {
    if property !in root then Err(Missing(property))
    else match root[property]
      case JBool(b) => Ok(b)
      case _ => Err(NotBoolean(property))
  }

  /** `TryGetString(root, property, ...)`: present, a JSON string, and not
      blank. */
  function TryGetString(root: map<string, Json>, property: string): (r: Result<string, ParseError>)
    ensures r.Ok? <==> property in root && root[property].JString? && !IsBlank(root[property].text)
    ensures r.Ok? ==> r.value == root[property].text
    ensures property !in root ==> r == Err(Missing(property))
    ensures property in root && !root[property].JString? ==> r == Err(NotString(property))
    ensures (property in root && root[property].JString? && IsBlank(root[property].text))
              ==> r == Err(Blank(property))
  {
    if property !in root then Err(Missing(property))
    else match root[property]
      case JString(text) => if IsBlank(text) then Err(Blank(property)) else Ok(text)
      case _ => Err(NotString(property))
  }

  /** `TryGetUtcTimestamp(root, property, ...)`: present, a non-blank JSON
      string, parsed by `DateTimeOffset.TryParse`, and with offset zero. A
      timestamp with any other offset is rejected, even when it denotes a
      valid instant. */
  function TryGetUtcTimestamp(root: map<string, Json>, property: string, parse: DateParser)
    : (r: Result<DateTimeOffset, ParseError>)
    ensures r.Ok? <==> property in root && root[property].JString?
                       && !IsBlank(root[property].text) && IsUtc(parse, root[property].text)
    ensures r.Ok? ==> Some(r.value) == parse(root[property].text) && r.value.offsetMinutes == 0
    ensures property !in root ==> r == Err(Missing(property))
    ensures (property in root && root[property].JString? && !IsBlank(root[property].text)
              && parse(root[property].text).Some? && parse(root[property].text).value.offsetMinutes != 0)
              ==> r == Err(NotUtc(property))
  {
    if property !in root then Err(Missing(property))
    else match root[property]
      case JString(text) =>
        if IsBlank(text) then Err(Blank(property))
        else (match parse(text)
          case None => Err(InvalidTimestamp(property))
          case Some(v) => if v.offsetMinutes != 0 then Err(NotUtc(property)) else Ok(v))
      case _ => Err(NotTimestampString(property))
  }
}
