/** `ScheduleService`: the due test for a watering schedule (`IsDue`,
    `IsAllowedDay`) and one tick of `EvaluateSchedulesAsync`, which starts
    every due schedule through the command gate, records a history entry,
    stamps the schedule's last-run date and raises an alarm for a start
    that was blocked by the water level or the broker connection. */
module Scheduling {
  import opened Base
  import opened Contracts
  import opened Topics
  import opened StateStores
  import opened Alarms
  import opened AlarmRaising
  import opened Commands

  /** The default of `SchedulingOptions.CheckIntervalSeconds`. */
  const DEFAULT_CHECK_INTERVAL_SECONDS: int := 30

  /** `WateringSchedule`, a row of the `schedules` table. */
  datatype WateringSchedule = WateringSchedule(
    id: int32,
    enabled: bool,
    startTimeUtc: string,
    runSeconds: int32,
    daysOfWeek: Option<string>,
    lastRunDateUtc: Option<string>)

  /** `RunHistoryEntry`, a row of the `run_history` table (its `Id` is
      assigned by the database and is not modelled). */
  datatype RunHistoryEntry = RunHistoryEntry(
    scheduleId: Option<int32>,
    requestedAtUtc: DateTimeOffset,
    runSeconds: int32,
    allowed: bool,
    reason: string)

  /** `TimeSpan.TryParse`, in whole seconds; its grammar is not modelled. */
  type TimeParser = string -> Option<int>

  /** `ToString("yyyy-MM-dd")` of a clock reading, given its day number
      since the epoch; the calendar is not modelled. */
  type DateFormatter = int -> string

  /** What one tick reads besides the schedules: the clock, the configured
      window length and the two library functions. */
  datatype ScheduleClock = ScheduleClock(
    nowUtc: DateTimeOffset,
    checkIntervalSeconds: int,
    parseTime: TimeParser,
    formatDate: DateFormatter)

  /** The day number of a clock reading, in its own offset. */
  function DayNumber(t: DateTimeOffset): int
  {
    t.LocalSeconds() / SECONDS_PER_DAY
  }

  /** `nowUtc.ToString("yyyy-MM-dd")`. */
  function Today(clock: ScheduleClock): string
  {
    clock.formatDate(DayNumber(clock.nowUtc))
  }

  // ---------------------------------------------------------------------
  // IsAllowedDay
  // ---------------------------------------------------------------------

  /** The three-letter token of a weekday. */
  function DayToken(d: DayOfWeek): (t: string)
    ensures |t| == 3
  {
    match d
    case Monday => "Mon"
    case Tuesday => "Tue"
    case Wednesday => "Wed"
    case Thursday => "Thu"
    case Friday => "Fri"
    case Saturday => "Sat"
    case Sunday => "Sun"
  }

  /** `StringSplitOptions.TrimEntries | RemoveEmptyEntries`: every piece
      trimmed, and the pieces left empty dropped. */
  function TrimmedNonEmpty(parts: seq<string>): (r: seq<string>)
    ensures |r| <= |parts|
    ensures forall i :: 0 <= i < |r| ==> r[i] != []
    decreases |parts|
  {
    if parts == [] then []
    else
      var t := Trim(parts[0]);
      (if t == [] then [] else [t]) + TrimmedNonEmpty(parts[1..])
  }

  /** The day tokens of a `DaysOfWeek` string. */
  function Tokens(days: string): seq<string>
  {
    TrimmedNonEmpty(Split(days, ','))
  }

  /** `IsAllowedDay(daysOfWeek, currentDay)`: a missing or blank day string,
      or one without any non-empty token, allows every day; otherwise some
      token must equal today's, ignoring case. */
  predicate IsAllowedDay(daysOfWeek: Option<string>, currentDay: DayOfWeek)
  {
    IsNullOrWhiteSpace(daysOfWeek)
    || Tokens(daysOfWeek.value) == []
    || exists i :: 0 <= i < |Tokens(daysOfWeek.value)| && EqualsIgnoreCase(Tokens(daysOfWeek.value)[i], DayToken(currentDay))
  }

  /** Recovers a weekday from the upper-cased first two letters of its
      token. */
  function DayOfKey(c0: char, c1: char): DayOfWeek
  {
    if c0 == 'M' then Monday
    else if c0 == 'W' then Wednesday
    else if c0 == 'F' then Friday
    else if c0 == 'T' then (if c1 == 'U' then Tuesday else Thursday)
    else if c1 == 'A' then Saturday
    else Sunday
  }

  lemma KeyRecoversDay(d: DayOfWeek)
    ensures DayOfKey(UpperAscii(DayToken(d)[0]), UpperAscii(DayToken(d)[1])) == d
  {
    match d {
      case Monday => case Tuesday => case Wednesday => case Thursday =>
      case Friday => case Saturday => case Sunday =>
    }
  }

  /** Distinct weekdays have tokens that differ even ignoring case. */
  lemma DayTokensDistinct(a: DayOfWeek, b: DayOfWeek)
    ensures EqualsIgnoreCase(DayToken(a), DayToken(b)) <==> a == b
  {
    KeyRecoversDay(a);
    KeyRecoversDay(b);
  }

  /** Pieces with no white space at either end survive trimming as they
      are, and the non-empty ones are all kept. */
  lemma {:induction false} TrimmedNonEmptyKeepsTokens(parts: seq<string>)
    requires forall i :: 0 <= i < |parts| ==> parts[i] != [] && !IsWhiteSpace(parts[i][0])
                                               && !IsWhiteSpace(parts[i][|parts[i]| - 1])
    ensures TrimmedNonEmpty(parts) == parts
    decreases |parts|
  {
    if parts != [] {
      TrimByKeepsUnstripped(parts[0], IsWhiteSpace);
      TrimmedNonEmptyKeepsTokens(parts[1..]);
    }
  }

  /** Pieces that are all blank leave no token. */
  lemma {:induction false} TrimmedNonEmptyDropsBlank(parts: seq<string>)
    requires forall i :: 0 <= i < |parts| ==> IsBlank(parts[i])
    ensures TrimmedNonEmpty(parts) == []
    decreases |parts|
  {
    if parts != [] {
      BlankIffTrimEmpty(parts[0]);
      TrimmedNonEmptyDropsBlank(parts[1..]);
    }
  }

  function DayTokens(days: seq<DayOfWeek>): (r: seq<string>)
    ensures |r| == |days| && forall i :: 0 <= i < |days| ==> r[i] == DayToken(days[i])
    decreases |days|
  {
    if days == [] then [] else [DayToken(days[0])] + DayTokens(days[1..])
  }

  /** A day token is non-empty, has no comma and no white space at its
      ends. */
  lemma DayTokenShape(d: DayOfWeek)
    ensures ',' !in DayToken(d)
    ensures !IsWhiteSpace(DayToken(d)[0]) && !IsWhiteSpace(DayToken(d)[|DayToken(d)| - 1])
  {
    match d {
      case Monday => case Tuesday => case Wednesday => case Thursday =>
      case Friday => case Saturday => case Sunday =>
    }
  }

  /** Joining weekday tokens with commas and tokenising again gives the
      tokens back. */
  lemma DayListTokens(days: seq<DayOfWeek>)
    requires days != []
    ensures Tokens(Join(DayTokens(days), ',')) == DayTokens(days)
  {
    var tokens := DayTokens(days);
    forall i | 0 <= i < |tokens|
      ensures ',' !in tokens[i]
      ensures tokens[i] != [] && !IsWhiteSpace(tokens[i][0]) && !IsWhiteSpace(tokens[i][|tokens[i]| - 1])
    {
      DayTokenShape(days[i]);
    }
    SplitJoin(tokens, ',');
    TrimmedNonEmptyKeepsTokens(tokens);
  }

  /** A joined list starts with its first piece. */
  lemma {:induction false} JoinStartsWithFirst(parts: seq<string>, sep: char)
    requires parts != []
    ensures |parts[0]| <= |Join(parts, sep)| && Join(parts, sep)[..|parts[0]|] == parts[0]
  {
    if |parts| > 1 {
      assert Join(parts, sep) == parts[0] + [sep] + Join(parts[1..], sep);
    }
  }

  /** A comma-separated list of weekday tokens, as the schedule editor
      writes them, allows exactly the listed days. */
  lemma DayListAllowsExactlyListed(days: seq<DayOfWeek>, d: DayOfWeek)
    requires days != []
    ensures IsAllowedDay(Some(Join(DayTokens(days), ',')), d) <==> d in days
  {
    var tokens := DayTokens(days);
    var text := Join(tokens, ',');
    DayListTokens(days);
    JoinStartsWithFirst(tokens, ',');
    DayTokenShape(days[0]);
    assert text[0] == tokens[0][0];
    assert !IsBlank(text);
    if d in days {
      var k :| 0 <= k < |days| && days[k] == d;
      DayTokensDistinct(d, d);
      assert EqualsIgnoreCase(tokens[k], DayToken(d));
    } else {
      forall i | 0 <= i < |tokens| ensures !EqualsIgnoreCase(tokens[i], DayToken(d)) {
        DayTokensDistinct(days[i], d);
      }
    }
  }

  /** A day string made only of commas and white space allows every day. */
  lemma OnlySeparatorsAllowEveryDay(days: string, d: DayOfWeek)
    requires forall i :: 0 <= i < |days| ==> days[i] == ',' || IsWhiteSpace(days[i])
    ensures IsAllowedDay(Some(days), d)
  {
    var parts := Split(days, ',');
    SplitPiecesFromInput(days, ',');
    forall i | 0 <= i < |parts| ensures IsBlank(parts[i]) {
      forall k | 0 <= k < |parts[i]| ensures IsWhiteSpace(parts[i][k]) {
        assert parts[i][k] in parts[i];
        assert parts[i][k] in days;
        var j :| 0 <= j < |days| && days[j] == parts[i][k];
        assert parts[i][k] != ',';
      }
    }
    TrimmedNonEmptyDropsBlank(parts);
  }

  // ---------------------------------------------------------------------
  // IsDue
  // ---------------------------------------------------------------------

  /** `IsDue(schedule, nowUtc)`: the start time parses, today is allowed,
      the schedule has not run today, and the time of day lies in
      `[start, start + CheckIntervalSeconds)`. */
  predicate IsDue(schedule: WateringSchedule, clock: ScheduleClock)
  {
    match clock.parseTime(schedule.startTimeUtc)
    case None => false
    case Some(start) =>
      IsAllowedDay(schedule.daysOfWeek, DayOfWeekOf(clock.nowUtc.LocalSeconds()))
      && schedule.lastRunDateUtc != Some(Today(clock))
      && start <= TimeOfDay(clock.nowUtc.LocalSeconds()) < start + clock.checkIntervalSeconds
  }

  /** A start time that does not parse is never due. */
  lemma UnparsableStartNeverDue(schedule: WateringSchedule, clock: ScheduleClock)
    requires clock.parseTime(schedule.startTimeUtc).None?
    ensures !IsDue(schedule, clock)
  {
  }

  /** A schedule whose last-run date is today's date is not due. */
  lemma RanTodayNotDue(schedule: WateringSchedule, clock: ScheduleClock)
    requires schedule.lastRunDateUtc == Some(Today(clock))
    ensures !IsDue(schedule, clock)
  {
  }

  /** With the other conditions met, the schedule is due exactly inside the
      half-open window: at its start, not at its end. */
  lemma WindowIsHalfOpen(schedule: WateringSchedule, clock: ScheduleClock, start: int)
    requires clock.parseTime(schedule.startTimeUtc) == Some(start)
    requires IsAllowedDay(schedule.daysOfWeek, DayOfWeekOf(clock.nowUtc.LocalSeconds()))
    requires schedule.lastRunDateUtc != Some(Today(clock))
    ensures IsDue(schedule, clock)
            <==> start <= TimeOfDay(clock.nowUtc.LocalSeconds()) < start + clock.checkIntervalSeconds
    ensures TimeOfDay(clock.nowUtc.LocalSeconds()) == start + clock.checkIntervalSeconds ==> !IsDue(schedule, clock)
    ensures (TimeOfDay(clock.nowUtc.LocalSeconds()) == start && clock.checkIntervalSeconds > 0)
              ==> IsDue(schedule, clock)
  {
  }

  /** The window does not wrap past midnight: the part of it that would
      fall on the next day is never due. */
  lemma WindowDoesNotWrap(schedule: WateringSchedule, clock: ScheduleClock, start: int)
    requires clock.parseTime(schedule.startTimeUtc) == Some(start)
    requires clock.checkIntervalSeconds <= SECONDS_PER_DAY
    requires TimeOfDay(clock.nowUtc.LocalSeconds()) < start + clock.checkIntervalSeconds - SECONDS_PER_DAY
    ensures !IsDue(schedule, clock)
  {
  }

  /** The case of `IsDue_ReturnsTrueWithinWindow`: 2024-01-01 (day 19723 of
      the epoch) is a Monday, and a "Mon" schedule at 07:00 with a 60-second
      window is due at 07:00:30. */
  lemma MondayMorningIsDue(clock: ScheduleClock)
    requires clock.nowUtc == DateTimeOffset(19723 * SECONDS_PER_DAY + 7 * 3600 + 30, 0)
    requires clock.checkIntervalSeconds == 60 && clock.parseTime("07:00") == Some(7 * 3600)
    ensures IsDue(WateringSchedule(1, true, "07:00", 30, Some("Mon"), None), clock)
  {
    assert DayOfWeekOf(clock.nowUtc.LocalSeconds()) == Monday;
    DayListAllowsExactlyListed([Monday], Monday);
    assert Join(DayTokens([Monday]), ',') == "Mon";
  }

  // ---------------------------------------------------------------------
  // One tick
  // ---------------------------------------------------------------------

  /** Whether the tick starts a schedule. */
  predicate Runs(schedule: WateringSchedule, clock: ScheduleClock)
  {
    schedule.enabled && IsDue(schedule, clock)
  }

  /** The history reason: `result.Reason ?? (success ? "schedule" : "blocked")`. */
  function HistoryReason(r: PumpCommandResult): string
  {
    if r.reason.Some? then r.reason.value else if r.success then "schedule" else "blocked"
  }

  /** A safety verdict as the command gate produces it: a blocking verdict
      names one of the three level reasons. */
  predicate LevelReasons(v: SafetyVerdict)
  {
    !v.allowed ==> v.reason in {"level_unknown", "level_stale", "level_empty"}
  }

  /** Every scheduled-start result carries a reason, so the fallbacks are
      never used: the history reason is `schedule` exactly on success and
      never `blocked`. */
  lemma ScheduledReasonsAreExplicit(runSeconds: int, connected: bool, latest: Option<WaterLevelSnapshot>,
                                    now: DateTimeOffset, staleMinutes: int, id: RequestId)
    ensures var r := StartResult(Scheduled, runSeconds, connected, EvaluateSafety(latest, now, staleMinutes), id);
      r.reason.Some? && HistoryReason(r) != "blocked" && (HistoryReason(r) == "schedule" <==> r.success)
  {
  }

  /** The alarms raised after a start: a blocked `level_*` reason raises
      `LOW_WATER` for an empty tank and `LEVEL_UNKNOWN` otherwise; a blocked
      `mqtt_disconnected` raises `MQTT_DISCONNECTED`. */
  function BlockedAlarms(r: PumpCommandResult, reason: string): (alarms: seq<AlarmText>)
    ensures |alarms| <= 1
    ensures r.success ==> alarms == []
    ensures |alarms| == 1 <==> !r.success && (StartsWith(reason, "level_") || reason == "mqtt_disconnected")
    ensures (!r.success && reason == "level_empty")
              ==> alarms == [AlarmText("LOW_WATER", "Pump run blocked due to low water level")]
    ensures (!r.success && reason == "mqtt_disconnected")
              ==> alarms == [AlarmText("MQTT_DISCONNECTED", "Pump run blocked due to MQTT disconnect")]
    ensures (!r.success && StartsWith(reason, "level_") && reason != "level_empty")
              ==> alarms[0].alarmType == "LEVEL_UNKNOWN"
    ensures |alarms| == 1 && alarms[0].alarmType == "MQTT_DISCONNECTED" ==> reason == "mqtt_disconnected"
  {
    assert StartsWith(reason, "level_") ==> reason[1] == 'e' && reason != "mqtt_disconnected";
    LevelAlarms(r, reason) + DisconnectAlarms(r, reason)
  }

  /** The first `if` after a start. */
  function LevelAlarms(r: PumpCommandResult, reason: string): seq<AlarmText>
  {
    if !r.success && StartsWith(reason, "level_") then
      [AlarmText(if reason == "level_empty" then "LOW_WATER" else "LEVEL_UNKNOWN",
                 if reason == "level_empty" then "Pump run blocked due to low water level"
                 else if reason == "level_stale" then "Pump run blocked due to stale water level data"
                 else "Pump run blocked due to unknown water level")]
    else []
  }

  /** The second `if` after a start. */
  function DisconnectAlarms(r: PumpCommandResult, reason: string): seq<AlarmText>
  {
    if !r.success && reason == "mqtt_disconnected" then
      [AlarmText("MQTT_DISCONNECTED", "Pump run blocked due to MQTT disconnect")]
    else []
  }

  /** What the tick's starts see: the broker connection, the safety verdict
      (neither changes during a tick), the topics of the two services and
      the wall-clock reading used for command and alarm timestamps. */
  datatype Gate = Gate(
    connected: bool,
    verdict: SafetyVerdict,
    commandTopics: MqttTopics,
    alarmTopics: MqttTopics,
    wallNow: DateTimeOffset)

  function AlarmPayloadOf(t: AlarmText, wallNow: DateTimeOffset): SystemAlarmPayload
  {
    SystemAlarmPayload(t.alarmType, SEVERITY_WARNING, t.message, wallNow)
  }

  /** The messages that raising `alarms`, in order, hands to the broker:
      one retained alarm message each while connected, none otherwise. */
  function RaisedMessages(alarms: seq<AlarmText>, g: Gate): (ms: seq<Message>)
    ensures !g.connected ==> ms == []
    ensures g.connected ==> |ms| == |alarms|
    ensures g.connected ==> forall k :: 0 <= k < |ms| ==> ms[k] == AlarmMessage(g.alarmTopics, AlarmPayloadOf(alarms[k], g.wallNow))
    decreases |alarms|
  {
    if alarms == [] then []
    else Delivered(g.connected, AlarmMessage(g.alarmTopics, AlarmPayloadOf(alarms[0], g.wallNow)))
         + RaisedMessages(alarms[1..], g)
  }

  /** The alarms that raising `alarms`, in order, adds to the store. */
  function RaisedUpdates(alarms: seq<AlarmText>, g: Gate): (us: seq<SystemAlarmUpdate>)
    ensures |us| == |alarms|
    ensures forall k :: 0 <= k < |us| ==> us[k] == StoredAlarm(AlarmPayloadOf(alarms[k], g.wallNow), g.wallNow)
    decreases |alarms|
  {
    if alarms == [] then []
    else [StoredAlarm(AlarmPayloadOf(alarms[0], g.wallNow), g.wallNow)] + RaisedUpdates(alarms[1..], g)
  }

  /** Everything a tick hands to the outside world, in order. */
  datatype TickEffects = TickEffects(
    history: seq<RunHistoryEntry>,
    messages: seq<Message>,
    alarms: seq<SystemAlarmUpdate>,
    nextId: nat)

  /** `e0` followed by `e1`. */
  function Then(e0: TickEffects, e1: TickEffects): TickEffects
  {
    TickEffects(e0.history + e1.history, e0.messages + e1.messages, e0.alarms + e1.alarms, e1.nextId)
  }

  /** The scheduled start of a schedule that runs, with the id its command
      would take. */
  function StartOf(schedule: WateringSchedule, g: Gate, id: RequestId): PumpCommandResult
  {
    StartResult(Scheduled, schedule.runSeconds, g.connected, g.verdict, id)
  }

  function CommandsOf(r: PumpCommandResult, schedule: WateringSchedule, g: Gate, id: RequestId): seq<Message>
  {
    if r.success then [CommandMessage(g.commandTopics, StartCommand(Scheduled, schedule.runSeconds, id, g.wallNow))]
    else []
  }

  function EntryOf(schedule: WateringSchedule, clock: ScheduleClock, r: PumpCommandResult): RunHistoryEntry
  {
    RunHistoryEntry(Some(schedule.id), clock.nowUtc, schedule.runSeconds, r.success, HistoryReason(r))
  }

  /** What the start of a schedule that runs adds: its history entry, its
      command when it succeeds, and the id that command consumes. */
  function StartEffects(schedule: WateringSchedule, clock: ScheduleClock, g: Gate, id: RequestId): TickEffects
  {
    var r := StartOf(schedule, g, id);
    TickEffects([EntryOf(schedule, clock, r)], CommandsOf(r, schedule, g, id), [], if r.success then id + 1 else id)
  }

  /** What raising `alarms` adds. */
  function AlarmEffects(alarms: seq<AlarmText>, g: Gate, id: RequestId): TickEffects
  {
    TickEffects([], RaisedMessages(alarms, g), RaisedUpdates(alarms, g), id)
  }

  /** The contribution of one schedule that runs: its start, then the
      alarms the start's reason calls for. */
  function ScheduleEffects(schedule: WateringSchedule, clock: ScheduleClock, g: Gate, id: RequestId): (e: TickEffects)
    ensures |e.history| == 1 && e.history[0].scheduleId == Some(schedule.id)
    ensures e.history[0].runSeconds == schedule.runSeconds && e.history[0].requestedAtUtc == clock.nowUtc
    ensures e.history[0].allowed <==> schedule.runSeconds > 0 && g.connected && g.verdict.allowed
    ensures e.nextId == if e.history[0].allowed then id + 1 else id
  {
    var r := StartOf(schedule, g, id);
    var started := StartEffects(schedule, clock, g, id);
    Then(started, AlarmEffects(BlockedAlarms(r, HistoryReason(r)), g, started.nextId))
  }

  /** The contribution of one schedule: nothing unless it runs. */
  function StepEffects(schedule: WateringSchedule, clock: ScheduleClock, g: Gate, id: RequestId): (e: TickEffects)
    ensures !Runs(schedule, clock) ==> e == TickEffects([], [], [], id)
  {
    if Runs(schedule, clock) then ScheduleEffects(schedule, clock, g, id) else TickEffects([], [], [], id)
  }

  /** The effects of a tick over `schedules`, in order. */
  function TickEffectsOf(schedules: seq<WateringSchedule>, clock: ScheduleClock, g: Gate, firstId: RequestId)
    : (e: TickEffects)
    ensures e.nextId >= firstId
    decreases |schedules|
  {
    if schedules == [] then TickEffects([], [], [], firstId)
    else
      var before := TickEffectsOf(schedules[..|schedules| - 1], clock, g, firstId);
      var s := schedules[|schedules| - 1];
      Then(before, StepEffects(s, clock, g, before.nextId))
  }

  /** The schedules that run in a tick. */
  function Running(schedules: seq<WateringSchedule>, clock: ScheduleClock): seq<WateringSchedule>
    decreases |schedules|
  {
    if schedules == [] then []
    else
      var init := Running(schedules[..|schedules| - 1], clock);
      if Runs(schedules[|schedules| - 1], clock) then init + [schedules[|schedules| - 1]] else init
  }

  /** Each schedule that runs gets exactly one history entry, in order, for
      that schedule; disabled and undue schedules get none. */
  lemma {:induction false} OneEntryPerRun(schedules: seq<WateringSchedule>, clock: ScheduleClock, g: Gate, firstId: RequestId)
    ensures var e := TickEffectsOf(schedules, clock, g, firstId);
      var run := Running(schedules, clock);
      |e.history| == |run|
      && forall k :: 0 <= k < |run| ==> e.history[k].scheduleId == Some(run[k].id)
                                        && e.history[k].runSeconds == run[k].runSeconds
    decreases |schedules|
  {
    if schedules != [] {
      OneEntryPerRun(schedules[..|schedules| - 1], clock, g, firstId);
    }
  }

  /** No message of `ms` is an `MQTT_DISCONNECTED` alarm. */
  predicate NoDisconnectAlarm(ms: seq<Message>)
  {
    forall k :: 0 <= k < |ms| && ms[k].payload.AlarmPayload? ==> ms[k].payload.alarm.alarmType != "MQTT_DISCONNECTED"
  }

  lemma NoDisconnectAlarmAppend(a: seq<Message>, b: seq<Message>)
    requires NoDisconnectAlarm(a) && NoDisconnectAlarm(b)
    ensures NoDisconnectAlarm(a + b)
  {
    var ab := a + b;
    forall k | 0 <= k < |ab| && ab[k].payload.AlarmPayload?
      ensures ab[k].payload.alarm.alarmType != "MQTT_DISCONNECTED"
    {
      if k < |a| { assert ab[k] == a[k]; } else { assert ab[k] == b[k - |a|]; }
    }
  }

  /** A start while connected never gives the reason `mqtt_disconnected`. */
  lemma ConnectedStartReason(s: WateringSchedule, g: Gate, id: RequestId)
    requires LevelReasons(g.verdict) && g.connected
    ensures HistoryReason(StartOf(s, g, id)) != "mqtt_disconnected"
  {
  }

  /** Raising alarms none of which is `MQTT_DISCONNECTED`, or raising
      anything while disconnected, publishes no such alarm. */
  lemma RaisedNoDisconnectAlarm(alarms: seq<AlarmText>, g: Gate)
    requires g.connected ==> forall k :: 0 <= k < |alarms| ==> alarms[k].alarmType != "MQTT_DISCONNECTED"
    ensures NoDisconnectAlarm(RaisedMessages(alarms, g))
  {
    var raised := RaisedMessages(alarms, g);
    forall k | 0 <= k < |raised| ensures raised[k].payload.alarm.alarmType != "MQTT_DISCONNECTED" {
      assert raised[k].payload.alarm.alarmType == alarms[k].alarmType;
    }
  }

  /** One schedule's start publishes no `MQTT_DISCONNECTED` alarm: the
      command is not an alarm, and that alarm is only raised while
      disconnected, when nothing is published. */
  lemma StepNoDisconnectAlarm(s: WateringSchedule, clock: ScheduleClock, g: Gate, id: RequestId)
    requires LevelReasons(g.verdict)
    ensures NoDisconnectAlarm(StepEffects(s, clock, g, id).messages)
  {
    if Runs(s, clock) {
      var r := StartOf(s, g, id);
      var alarms := BlockedAlarms(r, HistoryReason(r));
      if g.connected {
        ConnectedStartReason(s, g, id);
      }
      RaisedNoDisconnectAlarm(alarms, g);
      var commands := CommandsOf(r, s, g, id);
      assert NoDisconnectAlarm(commands);
      NoDisconnectAlarmAppend(commands, RaisedMessages(alarms, g));
    }
  }

  /** No `MQTT_DISCONNECTED` alarm ever reaches the broker: it is raised
      only while disconnected, when the publisher drops it (it is still
      stored). */
  lemma {:induction false} DisconnectAlarmNeverPublished(schedules: seq<WateringSchedule>, clock: ScheduleClock, g: Gate,
                                                         firstId: RequestId)
    requires LevelReasons(g.verdict)
    ensures NoDisconnectAlarm(TickEffectsOf(schedules, clock, g, firstId).messages)
    decreases |schedules|
  {
    if schedules != [] {
      var init := schedules[..|schedules| - 1];
      DisconnectAlarmNeverPublished(init, clock, g, firstId);
      var before := TickEffectsOf(init, clock, g, firstId);
      var s := schedules[|schedules| - 1];
      StepNoDisconnectAlarm(s, clock, g, before.nextId);
      NoDisconnectAlarmAppend(before.messages, StepEffects(s, clock, g, before.nextId).messages);
    }
  }

  /** `ScheduleRepository`, reduced to its rows. */
  class ScheduleRepository {
    var rows: seq<WateringSchedule>

    constructor (rows: seq<WateringSchedule>)
      ensures this.rows == rows
    {
      this.rows := rows;
    }

    /** `GetAllAsync`: the rows (in id order in the database). */
    method GetAll() returns (r: seq<WateringSchedule>)
      ensures r == rows
    {
      r := rows;
    }

    /** `UpdateLastRunDateAsync(id, date)`: every row with that id gets the
        date; nothing else changes. */
    method UpdateLastRunDate(id: int32, date: string)
      modifies this
      ensures rows == Stamped(old(rows), id, date)
    {
      var i := 0;
      var updated: seq<WateringSchedule> := [];
      while i < |rows|
        invariant 0 <= i <= |rows|
        invariant updated == Stamped(rows[..i], id, date)
      {
        assert rows[..i + 1][..i] == rows[..i];
        updated := updated + [if rows[i].id == id then rows[i].(lastRunDateUtc := Some(date)) else rows[i]];
        i := i + 1;
      }
      assert rows[..i] == rows;
      rows := updated;
    }
  }

  /** `RunHistoryRepository`, reduced to the entries appended to it. */
  class RunHistoryRepository {
    var entries: seq<RunHistoryEntry>

    constructor ()
      ensures entries == []
    {
      entries := [];
    }

    method Add(entry: RunHistoryEntry)
      modifies this
      ensures entries == old(entries) + [entry]
    {
      entries := entries + [entry];
    }
  }

  /** Schedule ids are the table's primary key: no row repeats the id of
      an earlier row. */
  predicate UniqueIds(rows: seq<WateringSchedule>)
    decreases |rows|
  {
    rows == [] || (UniqueIds(rows[..|rows| - 1]) && IdAbsent(rows[..|rows| - 1], rows[|rows| - 1].id))
  }

  /** No row of `rows` has the id `id`. */
  predicate IdAbsent(rows: seq<WateringSchedule>, id: int32)
    decreases |rows|
  {
    rows == [] || (rows[|rows| - 1].id != id && IdAbsent(rows[..|rows| - 1], id))
  }

  lemma {:induction false} IdAbsentAt(rows: seq<WateringSchedule>, id: int32, k: nat)
    requires IdAbsent(rows, id) && k < |rows|
    ensures rows[k].id != id
    decreases |rows|
  {
    if k < |rows| - 1 {
      IdAbsentAt(rows[..|rows| - 1], id, k);
    }
  }

  /** Any two rows of a table with unique ids have different ids. */
  lemma {:induction false} UniqueIdsDistinct(rows: seq<WateringSchedule>, i: nat, j: nat)
    requires UniqueIds(rows) && i < j < |rows|
    ensures rows[i].id != rows[j].id
    decreases |rows|
  {
    if j < |rows| - 1 {
      UniqueIdsDistinct(rows[..|rows| - 1], i, j);
    } else {
      IdAbsentAt(rows[..|rows| - 1], rows[j].id, i);
    }
  }

  /** A row after the tick: stamped with today's date when it ran. */
  function AfterTick(schedule: WateringSchedule, clock: ScheduleClock): WateringSchedule
  {
    if Runs(schedule, clock) then schedule.(lastRunDateUtc := Some(Today(clock))) else schedule
  }

  /** A schedule that ran is not due again on the same day, whatever the
      time and whether its start was allowed. */
  lemma StampedNotDueSameDay(schedule: WateringSchedule, clock: ScheduleClock, later: ScheduleClock)
    requires Runs(schedule, clock)
    requires later.formatDate == clock.formatDate && DayNumber(later.nowUtc) == DayNumber(clock.nowUtc)
    ensures !IsDue(AfterTick(schedule, clock), later)
  {
  }

  /** The alarm list after adding `alarms` in order. */
  function AddedFrom(list: seq<SystemAlarmUpdate>, alarms: seq<SystemAlarmUpdate>, maxCount: int)
    : seq<SystemAlarmUpdate>
    decreases |alarms|
  {
    if alarms == [] then list
    else Added(AddedFrom(list, alarms[..|alarms| - 1], maxCount), alarms[|alarms| - 1], maxCount)
  }

  lemma {:induction false} AddedFromAppend(list: seq<SystemAlarmUpdate>, a: seq<SystemAlarmUpdate>,
                                           b: seq<SystemAlarmUpdate>, maxCount: int)
    ensures AddedFrom(list, a + b, maxCount) == AddedFrom(AddedFrom(list, a, maxCount), b, maxCount)
    decreases |b|
  {
    if b == [] {
      assert a + b == a;
    } else {
      AddedFromAppend(list, a, b[..|b| - 1], maxCount);
      assert (a + b)[..|a + b| - 1] == a + b[..|b| - 1];
    }
  }

  function Records(alarms: seq<SystemAlarmUpdate>): (r: seq<AlarmRecord>)
    ensures |r| == |alarms| && forall k :: 0 <= k < |alarms| ==> r[k] == ToRecord(alarms[k])
    decreases |alarms|
  {
    if alarms == [] then [] else Records(alarms[..|alarms| - 1]) + [ToRecord(alarms[|alarms| - 1])]
  }

  lemma AppendAssociates<T>(a: seq<T>, b: seq<T>, c: seq<T>)
    ensures (a + b) + c == a + (b + c)
  {
  }

  lemma RecordsAppend(a: seq<SystemAlarmUpdate>, b: seq<SystemAlarmUpdate>)
    ensures Records(a + b) == Records(a) + Records(b)
  {
    var l, r := Records(a + b), Records(a) + Records(b);
    forall k | 0 <= k < |l| ensures l[k] == r[k] {
      if k < |a| {
        assert (a + b)[k] == a[k];
      } else {
        assert (a + b)[k] == b[k - |a|];
      }
    }
  }

  /** What a tick appends to: the run history, the broker's log, the
      alarm store's list and its repository's inserts, and the next
      command id. */
  datatype Logs = Logs(
    history: seq<RunHistoryEntry>,
    messages: seq<Message>,
    alarms: seq<SystemAlarmUpdate>,
    inserts: seq<AlarmRecord>,
    nextId: nat)

  /** `after` is `before` with the effects `e` applied to a store of the
      given capacity. */
  predicate Applied(e: TickEffects, before: Logs, after: Logs, maxCount: int)
  {
    after.history == before.history + e.history
    && after.messages == before.messages + e.messages
    && after.alarms == AddedFrom(before.alarms, e.alarms, maxCount)
    && after.inserts == before.inserts + Records(e.alarms)
    && after.nextId == e.nextId
  }

  /** Applying two effects one after the other applies their sequence. */
  lemma AppliedThen(e0: TickEffects, e1: TickEffects, l0: Logs, l1: Logs, l2: Logs, maxCount: int)
    requires Applied(e0, l0, l1, maxCount) && Applied(e1, l1, l2, maxCount)
    ensures Applied(Then(e0, e1), l0, l2, maxCount)
  {
    AddedFromAppend(l0.alarms, e0.alarms, e1.alarms, maxCount);
    RecordsAppend(e0.alarms, e1.alarms);
    AppendAssociates(l0.history, e0.history, e1.history);
    AppendAssociates(l0.messages, e0.messages, e1.messages);
    AppendAssociates(l0.inserts, Records(e0.alarms), Records(e1.alarms));
  }

  /** No effects leave the logs as they are. */
  lemma AppliedNothing(l: Logs, maxCount: int)
    ensures Applied(TickEffects([], [], [], l.nextId), l, l, maxCount)
  {
    assert l.history + [] == l.history && l.messages + [] == l.messages && l.inserts + [] == l.inserts;
  }

  /** Rows after `UpdateLastRunDateAsync(id, date)`. */
  function Stamped(rows: seq<WateringSchedule>, id: int32, date: string): (r: seq<WateringSchedule>)
    ensures |r| == |rows|
    ensures forall j :: 0 <= j < |rows| ==> r[j] == if rows[j].id == id then rows[j].(lastRunDateUtc := Some(date)) else rows[j]
    decreases |rows|
  {
    if rows == [] then []
    else Stamped(rows[..|rows| - 1], id, date)
         + [if rows[|rows| - 1].id == id then rows[|rows| - 1].(lastRunDateUtc := Some(date)) else rows[|rows| - 1]]
  }

  /** The table once the tick has handled its first `i` rows: each of
      those stamped when it ran, the rest as they were. */
  function RowsAfter(schedules: seq<WateringSchedule>, i: nat, clock: ScheduleClock): (r: seq<WateringSchedule>)
    requires i <= |schedules|
    ensures |r| == |schedules|
    decreases i
  {
    if i == 0 then schedules else RowsAfter(schedules, i - 1, clock)[i - 1 := AfterTick(schedules[i - 1], clock)]
  }

  lemma {:induction false} RowsAfterAt(schedules: seq<WateringSchedule>, i: nat, clock: ScheduleClock)
    requires i <= |schedules|
    ensures forall j :: 0 <= j < |schedules| ==>
      RowsAfter(schedules, i, clock)[j] == if j < i then AfterTick(schedules[j], clock) else schedules[j]
    decreases i
  {
    if i > 0 {
      RowsAfterAt(schedules, i - 1, clock);
    }
  }

  /** Stamping the schedule that runs next moves the tick one row on: ids
      are unique, so no other row is touched. */
  lemma StampAdvances(schedules: seq<WateringSchedule>, i: nat, clock: ScheduleClock)
    requires UniqueIds(schedules) && i < |schedules|
    ensures var rows := RowsAfter(schedules, i, clock);
      (if Runs(schedules[i], clock) then Stamped(rows, schedules[i].id, Today(clock)) else rows)
      == RowsAfter(schedules, i + 1, clock)
  {
    RowsAfterAt(schedules, i, clock);
    RowsAfterAt(schedules, i + 1, clock);
    var rows := RowsAfter(schedules, i, clock);
    var next := RowsAfter(schedules, i + 1, clock);
    if Runs(schedules[i], clock) {
      var stamped := Stamped(rows, schedules[i].id, Today(clock));
      forall j | 0 <= j < |schedules| ensures stamped[j] == next[j] {
        if j < i {
          UniqueIdsDistinct(schedules, j, i);
          assert rows[j].id == schedules[j].id;
        } else if j > i {
          UniqueIdsDistinct(schedules, i, j);
        }
      }
    } else {
      forall j | 0 <= j < |schedules| ensures rows[j] == next[j] {
      }
    }
  }

  /** A tick over `schedules` that has handled the first `i` rows,
      starting from the logs `start`: `now` and `rows` are the logs and the
      table at that point. */
  predicate Ticked(schedules: seq<WateringSchedule>, i: nat, clock: ScheduleClock, g: Gate, start: Logs,
                   now: Logs, rows: seq<WateringSchedule>, maxCount: int)
  {
    i <= |schedules|
    && Applied(TickEffectsOf(schedules[..i], clock, g, start.nextId), start, now, maxCount)
    && rows == RowsAfter(schedules, i, clock)
  }

  lemma TickedStart(schedules: seq<WateringSchedule>, clock: ScheduleClock, g: Gate, start: Logs, maxCount: int)
    ensures Ticked(schedules, 0, clock, g, start, start, schedules, maxCount)
  {
    assert schedules[..0] == [];
    AppliedNothing(start, maxCount);
  }

  /** The effects of the first `i + 1` rows are those of the first `i`
      followed by row `i`'s. */
  lemma TickEffectsExtend(schedules: seq<WateringSchedule>, i: nat, clock: ScheduleClock, g: Gate, firstId: RequestId)
    requires i < |schedules|
    ensures var e0 := TickEffectsOf(schedules[..i], clock, g, firstId);
      TickEffectsOf(schedules[..i + 1], clock, g, firstId) == Then(e0, StepEffects(schedules[i], clock, g, e0.nextId))
  {
    assert schedules[..i + 1][..i] == schedules[..i];
  }

  /** Handling row `i` moves the tick one row on. */
  lemma TickedNext(schedules: seq<WateringSchedule>, i: nat, clock: ScheduleClock, g: Gate, start: Logs,
                   mid: Logs, now: Logs, rows: seq<WateringSchedule>, next: seq<WateringSchedule>, maxCount: int)
    requires UniqueIds(schedules) && i < |schedules|
    requires Ticked(schedules, i, clock, g, start, mid, rows, maxCount)
    requires Applied(StepEffects(schedules[i], clock, g, mid.nextId), mid, now, maxCount)
    requires next == if Runs(schedules[i], clock) then Stamped(rows, schedules[i].id, Today(clock)) else rows
    ensures Ticked(schedules, i + 1, clock, g, start, now, next, maxCount)
  {
    StampAdvances(schedules, i, clock);
    var e0 := TickEffectsOf(schedules[..i], clock, g, start.nextId);
    TickEffectsExtend(schedules, i, clock, g, start.nextId);
    AppliedThen(e0, StepEffects(schedules[i], clock, g, e0.nextId), start, mid, now, maxCount);
  }

  /** A tick that has handled every row has applied its effects and
      stamped exactly the rows that ran. */
  lemma TickedDone(schedules: seq<WateringSchedule>, clock: ScheduleClock, g: Gate, start: Logs,
                   now: Logs, rows: seq<WateringSchedule>, maxCount: int)
    requires Ticked(schedules, |schedules|, clock, g, start, now, rows, maxCount)
    ensures Applied(TickEffectsOf(schedules, clock, g, start.nextId), start, now, maxCount)
    ensures |rows| == |schedules| && forall j :: 0 <= j < |rows| ==> rows[j] == AfterTick(schedules[j], clock)
  {
    assert schedules[..|schedules|] == schedules;
    RowsAfterAt(schedules, |schedules|, clock);
  }

  class ScheduleService {
    const scheduleRepository: ScheduleRepository
    const historyRepository: RunHistoryRepository
    const commands: PumpCommandService
    const alarmService: AlarmService
    const checkIntervalSeconds: int

    constructor (scheduleRepository: ScheduleRepository, historyRepository: RunHistoryRepository,
                 commands: PumpCommandService, alarmService: AlarmService, checkIntervalSeconds: int)
      ensures this.scheduleRepository == scheduleRepository && this.historyRepository == historyRepository
      ensures this.commands == commands && this.alarmService == alarmService
      ensures this.checkIntervalSeconds == checkIntervalSeconds
    {
      this.scheduleRepository := scheduleRepository;
      this.historyRepository := historyRepository;
      this.commands := commands;
      this.alarmService := alarmService;
      this.checkIntervalSeconds := checkIntervalSeconds;
    }

    /** The gate seen by starts issued now. */
    ghost predicate GateMatches(g: Gate, nowUtc: DateTimeOffset, wallNow: DateTimeOffset)
      reads commands.publisher`isConnected, commands.waterLevelStore
    {
      g == Gate(commands.publisher.isConnected,
                EvaluateSafety(commands.waterLevelStore.latest, nowUtc, commands.staleMinutes),
                commands.topics, alarmService.topics, wallNow)
    }

    /** The logs a tick appends to, as they are now. */
    ghost function Observed(): Logs
      reads historyRepository, commands`nextRequestId, commands.publisher`log, alarmService.store`alarms,
            alarmService.store.repository
    {
      Logs(historyRepository.entries, commands.publisher.log, alarmService.store.alarms,
           alarmService.store.repository.inserts, commands.nextRequestId)
    }

    /** One `RaiseAsync(type, "warning", message)` call of the tick; both
        of its clock readings are `wallNow`. */
    method RaiseText(t: AlarmText, wallNow: DateTimeOffset, ghost g: Gate)
      requires commands.publisher == alarmService.publisher
      requires g.connected == alarmService.publisher.isConnected && g.alarmTopics == alarmService.topics
      requires g.wallNow == wallNow
      modifies alarmService.publisher`log, alarmService.store, alarmService.store.repository
      ensures Applied(AlarmEffects([t], g, commands.nextRequestId), old(Observed()), Observed(), alarmService.store.maxCount)
    {
      alarmService.Raise(t.alarmType, SEVERITY_WARNING, t.message, wallNow, wallNow);
      assert [t][1..] == [];
      ghost var u := RaisedUpdates([t], g);
      assert u == [StoredAlarm(AlarmPayloadOf(t, wallNow), wallNow)];
      assert u[..0] == [];
    }

    /** The two alarm `if`s that follow a start. */
    method RaiseBlockedAlarms(result: PumpCommandResult, reason: string, wallNow: DateTimeOffset, ghost g: Gate)
      requires commands.publisher == alarmService.publisher
      requires g.connected == alarmService.publisher.isConnected && g.alarmTopics == alarmService.topics
      requires g.wallNow == wallNow
      modifies alarmService.publisher`log, alarmService.store, alarmService.store.repository
      ensures Applied(AlarmEffects(BlockedAlarms(result, reason), g, commands.nextRequestId), old(Observed()), Observed(),
                      alarmService.store.maxCount)
    {
      ghost var level := LevelAlarms(result, reason);
      ghost var disconnect := DisconnectAlarms(result, reason);
      assert BlockedAlarms(result, reason) == level + disconnect;
      if !result.success && StartsWith(reason, "level_") {
        var message := if reason == "level_empty" then "Pump run blocked due to low water level"
                       else if reason == "level_stale" then "Pump run blocked due to stale water level data"
                       else "Pump run blocked due to unknown water level";
        var t := AlarmText(if reason == "level_empty" then "LOW_WATER" else "LEVEL_UNKNOWN", message);
        assert level == [t] && disconnect == [];
        RaiseText(t, wallNow, g);
      } else if !result.success && reason == "mqtt_disconnected" {
        var t := AlarmText("MQTT_DISCONNECTED", "Pump run blocked due to MQTT disconnect");
        assert level == [] && disconnect == [t];
        RaiseText(t, wallNow, g);
      } else {
        assert level == [] && disconnect == [];
        AppliedNothing(Observed(), alarmService.store.maxCount);
      }
    }

    /** The scheduled start and its history entry. */
    method StartAndRecord(schedule: WateringSchedule, clock: ScheduleClock, wallNow: DateTimeOffset, ghost g: Gate)
      returns (result: PumpCommandResult)
      requires GateMatches(g, clock.nowUtc, wallNow)
      modifies historyRepository, commands`nextRequestId, commands.publisher`log
      ensures result == StartOf(schedule, g, old(commands.nextRequestId))
      ensures Applied(StartEffects(schedule, clock, g, old(commands.nextRequestId)), old(Observed()), Observed(),
                      alarmService.store.maxCount)
    {
      result := commands.StartScheduled(schedule.runSeconds, clock.nowUtc, wallNow);
      var reason := HistoryReason(result);
      historyRepository.Add(RunHistoryEntry(Some(schedule.id), clock.nowUtc, schedule.runSeconds, result.success, reason));
      assert alarmService.store.repository.inserts + [] == alarmService.store.repository.inserts;
    }

    /** The loop body for a schedule that runs: the start, its history
        entry, the last-run stamp and the alarms. */
    method RunSchedule(schedule: WateringSchedule, clock: ScheduleClock, wallNow: DateTimeOffset, ghost g: Gate)
      requires commands.publisher == alarmService.publisher
      requires GateMatches(g, clock.nowUtc, wallNow)
      modifies scheduleRepository, historyRepository, commands`nextRequestId, commands.publisher`log,
               alarmService.store, alarmService.store.repository
      ensures Applied(ScheduleEffects(schedule, clock, g, old(commands.nextRequestId)), old(Observed()), Observed(),
                      alarmService.store.maxCount)
      ensures scheduleRepository.rows == Stamped(old(scheduleRepository.rows), schedule.id, Today(clock))
    {
      ghost var l0 := Observed();
      ghost var started := StartEffects(schedule, clock, g, commands.nextRequestId);
      var result := StartAndRecord(schedule, clock, wallNow, g);
      ghost var l1 := Observed();
      scheduleRepository.UpdateLastRunDate(schedule.id, Today(clock));
      var reason := HistoryReason(result);
      RaiseBlockedAlarms(result, reason, wallNow, g);
      AppliedThen(started, AlarmEffects(BlockedAlarms(result, reason), g, started.nextId), l0, l1, Observed(),
                  alarmService.store.maxCount);
    }

    /** One pass of the loop: a disabled or undue schedule is skipped. */
    method Step(schedule: WateringSchedule, clock: ScheduleClock, wallNow: DateTimeOffset, ghost g: Gate,
                ghost schedules: seq<WateringSchedule>, ghost i: nat, ghost start: Logs)
      requires commands.publisher == alarmService.publisher
      requires GateMatches(g, clock.nowUtc, wallNow)
      requires UniqueIds(schedules) && i < |schedules| && schedules[i] == schedule
      requires Ticked(schedules, i, clock, g, start, Observed(), scheduleRepository.rows, alarmService.store.maxCount)
      modifies scheduleRepository, historyRepository, commands`nextRequestId, commands.publisher`log,
               alarmService.store, alarmService.store.repository
      ensures Ticked(schedules, i + 1, clock, g, start, Observed(), scheduleRepository.rows, alarmService.store.maxCount)
    {
      ghost var mid := Observed();
      ghost var rows := scheduleRepository.rows;
      if schedule.enabled {
        if IsDue(schedule, clock) {
          RunSchedule(schedule, clock, wallNow, g);
        }
      }
      if !Runs(schedule, clock) {
        AppliedNothing(mid, alarmService.store.maxCount);
      }
      TickedNext(schedules, i, clock, g, start, mid, Observed(), rows, scheduleRepository.rows,
                 alarmService.store.maxCount);
    }

    /** `EvaluateSchedulesAsync`, one tick: `clock.nowUtc` is the service's
        clock and `wallNow` stands for every reading of
        `DateTimeOffset.UtcNow` during the tick. The schedules are read once
        at the start. */
    method EvaluateSchedules(clock: ScheduleClock, wallNow: DateTimeOffset, ghost g: Gate)
      requires commands.publisher == alarmService.publisher
      requires clock.checkIntervalSeconds == checkIntervalSeconds
      requires UniqueIds(scheduleRepository.rows)
      requires GateMatches(g, clock.nowUtc, wallNow)
      modifies scheduleRepository, historyRepository, commands`nextRequestId, commands.publisher`log,
               alarmService.store, alarmService.store.repository
      ensures Applied(TickEffectsOf(old(scheduleRepository.rows), clock, g, old(commands.nextRequestId)),
                      old(Observed()), Observed(), alarmService.store.maxCount)
      ensures |scheduleRepository.rows| == |old(scheduleRepository.rows)|
      ensures forall j :: 0 <= j < |scheduleRepository.rows| ==>
                scheduleRepository.rows[j] == AfterTick(old(scheduleRepository.rows)[j], clock)
    {
      var schedules := scheduleRepository.GetAll();
      // The source returns at once on an empty list; the loop below does
      // nothing then either.
      ghost var start := Observed();
      TickedStart(schedules, clock, g, start, alarmService.store.maxCount);
      var i := 0;
      while i < |schedules|
        invariant 0 <= i <= |schedules|
        invariant GateMatches(g, clock.nowUtc, wallNow)
        invariant Ticked(schedules, i, clock, g, start, Observed(), scheduleRepository.rows, alarmService.store.maxCount)
      {
        Step(schedules[i], clock, wallNow, g, schedules, i, start);
        i := i + 1;
      }
      TickedDone(schedules, clock, g, start, Observed(), scheduleRepository.rows, alarmService.store.maxCount);
    }
  }
}
