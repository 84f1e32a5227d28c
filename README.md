# WateringController pump-safety and decision logic in Dafny

This project models, in Dafny, the logic that decides when the WateringController system may run its
pump, and proves properties of that model. The decisions live in three places:

- **The ASP.NET backend.**
  - The command gate (`PumpCommandService`): duration first, then the broker connection, then a
    three-tier water-level verdict (unknown, stale, empty).
  - The safety monitor (`PumpSafetyMonitorService`): one safety stop and one alarm per unsafe episode while stops succeed, with a failed stop retried.
  - The scheduler (`ScheduleService`): day tokens, a same-day guard and a half-open start window; one
    tick starts every due schedule, records history, stamps the schedule and raises alarms.
  - The alarm path (`AlarmService`, `AlarmStore`).
  - The single-slot state stores and the connection tracker.
  - The three MQTT payload validators and their handlers.
  - The topic names (`MqttTopics`).
- **The two ESP32 firmwares.**
  - `PumpLogic`: known, stale and safe levels, command evaluation, run timeout, disconnect stop and
    decision application, with `millis()` differences taken modulo 2^32.
  - `WaterLevelLogic`: sensor count to percentage, change detection and publish throttling.
- **The legacy Raspberry Pi library.**
  - `WaterLevelController`: the highest detecting float sensor gives the level.
  - `PumpEngineController`: a Stopped/Running guard over the relay pin.

Conventions of the model:

- **Time.** Backend times are `DateTimeOffset(utcSeconds, offsetMinutes)` in whole seconds. Firmware
  times are `uint32` milliseconds (`Base.uint32`), and `Base.Sub32` is the wrapping subtraction of C++.
- **Request ids.** A `Guid` becomes a counter (`nextRequestId`), so every command gets a fresh id that
  differs from all others.
- **Outbound channels.** The MQTT publisher is a class with `isConnected` and a log of messages that
  reached the broker; a publish while disconnected is dropped. The SignalR hub is a log of broadcasts.
  The database repositories are sequences of rows or inserts.
- **Library functions taken as parameters.**
  - `DateTimeOffset.TryParse` is a function `string -> Option<DateTimeOffset>`.
  - `TimeSpan.TryParse` is a function `string -> Option<int>` (seconds).
  - `ToString("yyyy-MM-dd")` is a function of the day number.
- **Clock readings.** `DateTimeOffset.UtcNow` and `TimeProvider.GetUtcNow()` readings are method
  parameters.
- **JSON.** `JsonDocument.Parse` gives a `Json` datatype: an object is a map; a number keeps its value
  when its literal is integral. `None` stands for bytes that are not JSON.

Each class keeps its source's mutable fields and proves its methods against specification functions:

- `Alarms.Added` is the alarm list after one `Add`.
- `Scheduling.TickEffectsOf` is everything one scheduler tick appends.
- `SafetyMonitor.TickDecision` and `SafetyMonitor.NextMemory` are the monitor's branches and its memory.
- `WaterLevelHandling.ParseWaterLevel` is the ordered validation.

Lemmas relate those functions to independent descriptions:

- Each validator accepts exactly the well-formed documents.
- A store of capacity N holds the newest min(k, N) alarms.
- With every stop succeeding, the monitor stops the pump exactly once per unsafe episode; a stop that fails is retried on the next tick.
- The legacy level is the maximum detecting level and depends only on the set of detecting levels.

## Model

| member | source | states |
|---|---|---|
| Base.Sub32 | infra/firmware/pump-esp32/src/pump_logic.cpp:26 | the unsigned 32-bit difference `a - b` is the distance from `b` forward to `a` modulo 2^32 |
| Base.TimeOfDay | src/backend/Services/ScheduleService.cs:158 | `TimeOfDay` lies in [0, 86400) and is the seconds since local midnight |
| Base.WeekdayAdvancesDaily | src/backend/Services/ScheduleService.cs:145 | one day later the `DayOfWeek` value is the next one modulo 7 (Saturday to Sunday) at the same `TimeOfDay`; seven days later it is the same weekday |
| Json.TryGetInt | src/backend/Mqtt/WaterLevelMqttHandler.cs:173-191 | accepts exactly a present JSON number that reads as a 32-bit integer and returns its value; missing gives `Missing(p)`, anything else `NotInteger(p)` |
| Json.TryGetBool | src/backend/Mqtt/PumpStateMqttHandler.cs:188-207 | accepts exactly a present literal `true`/`false` and returns it; missing gives `Missing(p)`, any other kind `NotBoolean(p)` |
| Json.TryGetString | src/backend/Mqtt/SystemAlarmMqttHandler.cs:138-164 | accepts exactly a present, non-blank JSON string and returns its text; missing, non-string and blank each give their own error |
| Json.TryGetUtcTimestamp | src/backend/Mqtt/WaterLevelMqttHandler.cs:193-234 | accepts exactly a present non-blank string that parses with offset zero and returns the parsed value; a parsed non-zero offset gives `NotUtc(p)` |
| Contracts.Publisher.Publish | src/backend/Mqtt/MqttClientHostedService.cs:50-56 | while connected the message is appended to the broker log; while disconnected the log is unchanged |
| Contracts.Hub.SendToAll | src/backend/Mqtt/WaterLevelMqttHandler.cs:67 | exactly one broadcast is appended |
| Topics.EffectivePrefix | src/backend/Mqtt/MqttTopics.cs:15-19 | the prefix used is never empty and never starts or ends with `/` |
| Topics.TopicFor | src/backend/Mqtt/MqttTopics.cs:21-26 | a topic is the prefix, then `/WateringController/`, then the suffix, with the lengths adding up |
| Topics.FromPrefix | src/backend/Mqtt/MqttTopics.cs:13-27 | each of the five topics is `TopicFor(prefix, suffix)` with its own suffix under the effective prefix |
| Topics.DefaultPrefix | src/backend/Mqtt/MqttTopics.cs:15-19 | a null prefix, or one blank after trimming slashes, becomes `WateringController` |
| Topics.PrefixKeptAndSlashesTrimmed | src/backend/Mqtt/MqttTopics.cs:15 | a non-blank prefix without end slashes is kept as is, and `/p/` gives the same topics as `p` |
| Topics.DistinctSuffixesDistinctTopics | src/backend/Mqtt/MqttTopics.cs:21-26 | topics under one prefix whose suffixes differ at some position are different |
| Topics.TopicsDistinct | src/backend/Mqtt/MqttTopics.cs:22-26 | the five topics are pairwise distinct for every prefix |
| StateStores.WaterLevelStateStore.constructor | src/backend/State/WaterLevelStateStore.cs:11 | a fresh store holds nothing |
| StateStores.WaterLevelStateStore.GetLatest | src/backend/State/WaterLevelStateStore.cs:13-19 | returns the slot and changes nothing |
| StateStores.WaterLevelStateStore.Update | src/backend/State/WaterLevelStateStore.cs:21-27 | the slot becomes exactly `(payload, receivedAt)`, so the last write wins |
| StateStores.PumpStateStore.constructor | src/backend/State/PumpStateStore.cs:11 | a fresh store holds nothing |
| StateStores.PumpStateStore.GetLatest | src/backend/State/PumpStateStore.cs:13-19 | returns the slot and changes nothing |
| StateStores.PumpStateStore.Update | src/backend/State/PumpStateStore.cs:21-27 | the slot becomes exactly `(payload, receivedAt)` |
| Connection.MqttConnectionState.constructor | src/backend/Mqtt/MqttConnectionState.cs:9-11 | the initial state is disconnected, with no connect or disconnect time; no marks yet, so the fields are `AfterMarks([])` |
| Connection.MqttConnectionState.GetSnapshot | src/backend/Mqtt/MqttConnectionState.cs:13-19 | the snapshot holds the three fields, and nothing changes |
| Connection.MqttConnectionState.MarkConnected | src/backend/Mqtt/MqttConnectionState.cs:21-28 | connected, connect time `at`, disconnect time kept; the mark is logged and the fields stay `AfterMarks` of all marks |
| Connection.MqttConnectionState.MarkDisconnected | src/backend/Mqtt/MqttConnectionState.cs:30-37 | disconnected, disconnect time `at`, connect time kept; the mark is logged and the fields stay `AfterMarks` of all marks |
| Connection.AfterMarks | src/backend/Mqtt/MqttConnectionState.cs:13-37 | after a sequence of marks the flag is that of the latest mark; with no marks the snapshot is the initial one |
| Connection.AfterMarksRecordsLatest | src/backend/Mqtt/MqttConnectionState.cs:21-37 | each recorded time is present exactly when a mark of its kind happened, and is the time of the latest such mark |
| Commands.EvaluateSafety | src/backend/Services/PumpCommandService.cs:137-157 | allowed exactly on a known, fresh, non-empty level; otherwise the first failing tier (unknown, stale, empty) gives the error and reason |
| Commands.BlockedReasons | src/backend/Services/PumpCommandService.cs:137-157 | a blocking verdict always carries an error and one of the three level reasons |
| Commands.StaleBoundary | src/backend/Services/PumpCommandService.cs:145-146 | a snapshot exactly at the threshold age is not stale; one second older is stale |
| Commands.StartResult | src/backend/Services/PumpCommandService.cs:46-132 | success exactly when duration > 0, connected and allowed; on success the result has the command's id and a reason of `manual`/`schedule`; each failure has no id and its own error and reason |
| Commands.StartCommand | src/backend/Services/PumpCommandService.cs:64-69 | a start command has action `start`, the given duration, the fresh id and the start kind's reason |
| Commands.CommandMessage | src/backend/Services/PumpCommandService.cs:73 | a command goes to the pump-command topic, not retained |
| Commands.DisconnectedBeforeLevel | src/backend/Services/PumpCommandService.cs:53-62 | while disconnected, a valid start gives `mqtt_disconnected` whatever the water level |
| Commands.DurationFirst | src/backend/Services/PumpCommandService.cs:48-51 | a non-positive duration fails the same way whatever the connection and the level |
| Commands.AppendKeepsIdsFresh | src/backend/Services/PumpCommandService.cs:64-74 | logging a command with the next id keeps every logged id below the counter, and the ids increasing |
| Commands.PumpCommandService.constructor | src/backend/Services/PumpCommandService.cs:27-41 | the service holds its collaborators and no id has been used |
| Commands.PumpCommandService.Start | src/backend/Services/PumpCommandService.cs:103-132 | the result is `StartResult` of the current connection and verdict; exactly one command is published and one id used on success, nothing otherwise; ids stay fresh |
| Commands.PumpCommandService.StartManual | src/backend/Services/PumpCommandService.cs:46-75 | the same for a manual start |
| Commands.PumpCommandService.StartScheduled | src/backend/Services/PumpCommandService.cs:103-132 | the same for a scheduled start |
| Commands.PumpCommandService.StopManual | src/backend/Services/PumpCommandService.cs:80-98 | success exactly when connected; then one `stop` command with no duration and reason `manual_stop`; otherwise `mqtt_disconnected` and nothing published |
| Commands.PumpCommandService.StopForSafety | src/backend/Services/PumpSafetyMonitorService.cs:82 | when accepted, one stop with reason `safety_stop:<reason>` is handed to the publisher whatever the level; when refused, nothing |
| AlarmRaising.AlarmMessage | src/backend/Services/AlarmService.cs:34-43 | an alarm goes to the alarm topic, retained, carrying the payload |
| AlarmRaising.StoredAlarm | src/backend/Services/AlarmService.cs:45-52 | the stored alarm has the published type, severity, message and raise time, and the receipt time |
| AlarmRaising.Delivered | src/backend/Mqtt/MqttClientHostedService.cs:50-56 | a publish reaches the broker log exactly when connected |
| AlarmRaising.AlarmService.constructor | src/backend/Services/AlarmService.cs:22-27 | the service holds its publisher, store and topics |
| AlarmRaising.AlarmService.Raise | src/backend/Services/AlarmService.cs:32-53 | one retained alarm message if connected, then one store insertion and one repository record whatever the connection; the capacity bound is kept |
| Alarms.ToRecord | src/backend/State/AlarmStore.cs:42-49 | the persisted record has the alarm's five fields |
| Alarms.AlarmRepository.AddAsync | src/backend/State/AlarmStore.cs:42-49 | one record is appended |
| Alarms.Added | src/backend/State/AlarmStore.cs:31-40 | the new alarm is at index 0, and the older alarms follow in their order; the list grows by one unless it passed `maxCount`, when the oldest is dropped; the length stays within capacity |
| Alarms.AddedTake | src/backend/State/AlarmStore.cs:35-39 | adding to a list cut to capacity gives `[a] + list` cut to capacity |
| Alarms.AddedKeepsNewest | src/backend/State/AlarmStore.cs:35-39 | inserting into the newest alarms of a history keeps the newest alarms of the longer history |
| Alarms.AddedAllKeepsNewest | src/backend/State/AlarmStore.cs:31-40 | after k insertions into an empty store of capacity N, it holds the last min(k, N) alarms, newest first |
| Alarms.AlarmStore.constructor | src/backend/State/AlarmStore.cs:17-21 | an empty list with the given capacity and repository |
| Alarms.AlarmStore.GetRecent | src/backend/State/AlarmStore.cs:23-29 | returns the list, newest first, and changes nothing |
| Alarms.AlarmStore.Add | src/backend/State/AlarmStore.cs:31-50 | the list becomes `Added(list, alarm, maxCount)` and one record is handed to the repository; the capacity bound is preserved |
| SafetyMonitor.EvaluateWaterLevelSafety | src/backend/Services/PumpSafetyMonitorService.cs:102-122 | allowed exactly on a safe level, with reason `ok`; otherwise `level_unknown` with no snapshot, `level_stale` on a stale one, `level_empty` on a fresh one at or below 0 percent |
| SafetyMonitor.MonitorAgreesWithGate | src/backend/Services/PumpSafetyMonitorService.cs:102-122 | the monitor's verdict and reason equal the command gate's for every input |
| SafetyMonitor.MapAlarm | src/backend/Services/PumpSafetyMonitorService.cs:124-132 | `level_empty` gives `LOW_WATER`; every other reason gives `LEVEL_UNKNOWN`, with the three messages |
| SafetyMonitor.TickDecision | src/backend/Services/PumpSafetyMonitorService.cs:61-82 | forget exactly when not running or safe; do nothing exactly when unsafe for the remembered reason; otherwise stop for the new reason |
| SafetyMonitor.NextMemory | src/backend/Services/PumpSafetyMonitorService.cs:63-92 | the memory is cleared on forget, and set only by a successful stop |
| SafetyMonitor.RepeatedTickIsSilent | src/backend/Services/PumpSafetyMonitorService.cs:77-80 | after a successful stop, the same unsafe tick does nothing |
| SafetyMonitor.FailedStopIsRetried | src/backend/Services/PumpSafetyMonitorService.cs:83-91 | a failed stop keeps the memory, so the next identical tick stops again |
| SafetyMonitor.UnsafeSafeUnsafeStopsTwice | src/backend/Services/PumpSafetyMonitorService.cs:70-82 | unsafe, safe, unsafe again gives a second stop |
| SafetyMonitor.MemoryTracksCondition | src/backend/Services/PumpSafetyMonitorService.cs:61-92 | with every stop succeeding, the memory is the unsafe condition of the latest tick |
| SafetyMonitor.OneStopPerEpisode | src/backend/Services/PumpSafetyMonitorService.cs:61-94 | with every stop succeeding, from a fresh monitor, tick i stops exactly when it runs unsafely and tick i-1 was not in that same unsafe state; when a stop fails the same episode stops again (FailedStopIsRetried) |
| SafetyMonitor.PumpSafetyMonitor.constructor | src/backend/Services/PumpSafetyMonitorService.cs:23-39 | nothing is remembered |
| SafetyMonitor.PumpSafetyMonitor.EvaluateRunningPumpSafety | src/backend/Services/PumpSafetyMonitorService.cs:61-100 | the memory follows `NextMemory(TickDecision(..))`; an accepted stop publishes the stop, then the mapped `warning` alarm, and stores the alarm; any other branch publishes and stores nothing |
| Scheduling.DayToken | src/backend/Services/ScheduleService.cs:179-189 | each weekday has a three-letter token |
| Scheduling.TrimmedNonEmpty | src/backend/Services/ScheduleService.cs:173 | splitting with trim and remove-empty leaves only non-empty tokens |
| Scheduling.IsAllowedDay | src/backend/Services/ScheduleService.cs:166-192 | a missing or blank day string, or one with no non-empty token, allows every day; otherwise the day is allowed when some trimmed token matches today's, ignoring case. Its properties are proved in DayListAllowsExactlyListed and OnlySeparatorsAllowEveryDay |
| Scheduling.DayTokensDistinct | src/backend/Services/ScheduleService.cs:179-191 | two weekday tokens are equal ignoring case exactly when the days are equal |
| Scheduling.DayListAllowsExactlyListed | src/backend/Services/ScheduleService.cs:166-192 | a comma list of day tokens allows exactly the listed days |
| Scheduling.OnlySeparatorsAllowEveryDay | src/backend/Services/ScheduleService.cs:168-177 | a day string of only commas and white space allows every day |
| Scheduling.IsDue | src/backend/Services/ScheduleService.cs:137-161 | a schedule is due when its start time parses, today is an allowed day, the last-run date is not today's, and the time of day falls in the check window after the start. Its properties are proved in UnparsableStartNeverDue, RanTodayNotDue, WindowIsHalfOpen, WindowDoesNotWrap, MondayMorningIsDue and StampedNotDueSameDay |
| Scheduling.UnparsableStartNeverDue | src/backend/Services/ScheduleService.cs:139-143 | a start time that does not parse is never due |
| Scheduling.RanTodayNotDue | src/backend/Services/ScheduleService.cs:150-154 | a last-run date equal to today's string makes the schedule not due |
| Scheduling.WindowIsHalfOpen | src/backend/Services/ScheduleService.cs:156-160 | with the other checks passed, due exactly in `[start, start + interval)`: due at the start, not at the end |
| Scheduling.WindowDoesNotWrap | src/backend/Services/ScheduleService.cs:156-160 | the part of a window past midnight is never due on the next day |
| Scheduling.MondayMorningIsDue | src/backend.tests/ScheduleServiceTests.cs:11-26 | a `Mon` 07:00 schedule with a 60-second window is due at 07:00:30 on 2024-01-01 |
| Scheduling.ScheduledReasonsAreExplicit | src/backend/Services/ScheduleService.cs:94-95 | every scheduled-start result has a reason, so the history reason is `schedule` exactly on success and never `blocked` |
| Scheduling.BlockedAlarms | src/backend/Services/ScheduleService.cs:115-130 | a blocked `level_empty` raises `LOW_WATER`; other `level_*` reasons raise `LEVEL_UNKNOWN`; `mqtt_disconnected` raises `MQTT_DISCONNECTED`; a success or any other reason raises nothing; there is at most one alarm |
| Scheduling.RaisedMessages | src/backend/Services/ScheduleService.cs:124-129 | raising alarms publishes one retained alarm each while connected, and none while disconnected |
| Scheduling.RaisedUpdates | src/backend/Services/ScheduleService.cs:124-129 | every raised alarm is stored |
| Scheduling.ScheduleEffects | src/backend/Services/ScheduleService.cs:94-130 | a schedule that runs gets one history entry with its id, duration and time, allowed exactly when the gate lets it start; it uses an id only on success |
| Scheduling.StepEffects | src/backend/Services/ScheduleService.cs:77-85 | a disabled or undue schedule adds nothing |
| Scheduling.TickEffectsOf | src/backend/Services/ScheduleService.cs:75-131 | the tick's effects are the schedules' contributions in order, and the id counter never goes back |
| Scheduling.OneEntryPerRun | src/backend/Services/ScheduleService.cs:75-111 | the history gets one entry per schedule that runs, in order, with that schedule's id and duration |
| Scheduling.ConnectedStartReason | src/backend/Services/ScheduleService.cs:127 | a start while connected never has the reason `mqtt_disconnected` |
| Scheduling.RaisedNoDisconnectAlarm | src/backend/Services/ScheduleService.cs:127-130 | raising no `MQTT_DISCONNECTED` alarm, or raising while disconnected, publishes none |
| Scheduling.StepNoDisconnectAlarm | src/backend/Services/ScheduleService.cs:94-130 | one schedule's contribution publishes no `MQTT_DISCONNECTED` alarm |
| Scheduling.DisconnectAlarmNeverPublished | src/backend/Services/ScheduleService.cs:127-130 | no tick publishes an `MQTT_DISCONNECTED` alarm: it is raised only while disconnected, and then it is only stored |
| Scheduling.ScheduleRepository.GetAll | src/backend/Data/ScheduleRepository.cs:18-46 | returns the rows and changes nothing |
| Scheduling.ScheduleRepository.UpdateLastRunDate | src/backend/Data/ScheduleRepository.cs:92-106 | the rows with that id get the date, and every other row is unchanged |
| Scheduling.RunHistoryRepository.Add | src/backend/Services/ScheduleService.cs:104-111 | one entry is appended |
| Scheduling.Stamped | src/backend/Data/ScheduleRepository.cs:97-101 | row by row: the date is set where the id matches, and the row is unchanged elsewhere |
| Scheduling.StampedNotDueSameDay | src/backend/Services/ScheduleService.cs:113 | a schedule that ran is not due again on the same day, whether or not its start was allowed |
| Scheduling.StampAdvances | src/backend/Services/ScheduleService.cs:113 | with unique ids, stamping the schedule that ran touches no other row |
| Scheduling.ScheduleService.constructor | src/backend/Services/ScheduleService.cs:23-39 | the service holds its collaborators and the window length |
| Scheduling.ScheduleService.RaiseText | src/backend/Services/ScheduleService.cs:124 | one `warning` alarm applies exactly its effects to the logs |
| Scheduling.ScheduleService.RaiseBlockedAlarms | src/backend/Services/ScheduleService.cs:115-130 | the two alarm `if`s apply exactly `BlockedAlarms` |
| Scheduling.ScheduleService.StartAndRecord | src/backend/Services/ScheduleService.cs:94-111 | the scheduled start's result, with its command and its history entry |
| Scheduling.ScheduleService.RunSchedule | src/backend/Services/ScheduleService.cs:94-130 | a running schedule applies `ScheduleEffects` and stamps its row with today's date |
| Scheduling.ScheduleService.Step | src/backend/Services/ScheduleService.cs:77-130 | one loop pass moves the tick invariant from row i to row i+1 |
| Scheduling.ScheduleService.EvaluateSchedules | src/backend/Services/ScheduleService.cs:66-132 | the logs receive exactly `TickEffectsOf(rows)`, and every row is stamped exactly when it ran |
| WaterLevelHandling.Booleans | src/backend/Mqtt/WaterLevelMqttHandler.cs:132-143 | defined exactly when every element is a boolean, and then holds their values in order |
| WaterLevelHandling.ParseWaterLevel | src/backend/Mqtt/WaterLevelMqttHandler.cs:78-171 | the handler's checks in order (JSON, object root, integer level in [0,100], boolean sensors, four of them, two UTC timestamps), the first failure giving the error. Its properties are proved in AcceptsExactlyWellFormed, NonBooleanSensorBeforeCount, LevelCheckedBeforeSensors and RootMustBeObject, and TryParsePayload is proved equal to it |
| WaterLevelHandling.AcceptsExactlyWellFormed | src/backend/Mqtt/WaterLevelMqttHandler.cs:78-171 | accepted exactly when the root is an object with an int level in [0,100], exactly four boolean sensors and two UTC timestamps; the payload carries those values |
| WaterLevelHandling.NonBooleanSensorBeforeCount | src/backend/Mqtt/WaterLevelMqttHandler.cs:132-149 | a non-boolean sensor is reported before a wrong sensor count |
| WaterLevelHandling.LevelCheckedBeforeSensors | src/backend/Mqtt/WaterLevelMqttHandler.cs:114-118 | an out-of-range level is reported whatever the sensors |
| WaterLevelHandling.RootMustBeObject | src/backend/Mqtt/WaterLevelMqttHandler.cs:103-107 | a root that is not an object is rejected |
| WaterLevelHandling.TryParsePayload | src/backend/Mqtt/WaterLevelMqttHandler.cs:78-171 | the element-by-element parse into a `bool[]` gives exactly `ParseWaterLevel` |
| WaterLevelHandling.UpdateOf | src/backend/Mqtt/WaterLevelMqttHandler.cs:58-65 | the broadcast carries the parsed fields and the receipt time |
| WaterLevelHandling.WaterLevelMqttHandler.constructor | src/backend/Mqtt/WaterLevelMqttHandler.cs:21-31 | the handler holds its store, topics and hub |
| WaterLevelHandling.WaterLevelMqttHandler.CanHandle | src/backend/Mqtt/WaterLevelMqttHandler.cs:36-37 | a topic is handled when it is ordinally equal to the water-level topic. Handle is proved to change nothing for any other topic, and Topics.TopicsDistinct makes the three handlers' topics disjoint |
| WaterLevelHandling.WaterLevelMqttHandler.Handle | src/backend/Mqtt/WaterLevelMqttHandler.cs:42-76 | on its topic with an accepted payload the store holds `(payload, receivedAt)` and one `WaterLevelUpdated` is sent; otherwise nothing changes; the retained flag plays no part |
| PumpStateHandling.TryGetSince | src/backend/Mqtt/PumpStateMqttHandler.cs:113-143 | absent or null gives none; a non-string is rejected; a string must be non-blank and parse with offset zero |
| PumpStateHandling.TryGetRequestId | src/backend/Mqtt/PumpStateMqttHandler.cs:156-168 | absent or null gives none; a string is kept; any other kind is rejected |
| PumpStateHandling.ParsePumpState | src/backend/Mqtt/PumpStateMqttHandler.cs:77-186 | invalid JSON and non-object roots are rejected, and an accepted running state always has `since` |
| PumpStateHandling.AcceptsExactlyWellFormed | src/backend/Mqtt/PumpStateMqttHandler.cs:77-186 | accepted exactly on a well-formed object (a 32-bit `lastRunSeconds` of either sign); each field carries the document's value |
| PumpStateHandling.RunningMustBeBoolean | src/backend/Mqtt/PumpStateMqttHandler.cs:108-111 | a missing `running` is reported as missing, and any non-boolean kind as not a boolean |
| PumpStateHandling.SinceRequiredOnlyWhenRunning | src/backend/Mqtt/PumpStateMqttHandler.cs:145-149 | running with no `since` is rejected; stopped with no or null `since` is accepted when the rest is fine |
| PumpStateHandling.NonUtcReportedAtRejected | src/backend/Mqtt/PumpStateMqttHandler.cs:170-173 | a `reportedAt` with a non-zero offset is rejected |
| PumpStateHandling.UpdateOf | src/backend/Mqtt/PumpStateMqttHandler.cs:57-65 | the broadcast carries the parsed fields and the receipt time |
| PumpStateHandling.PumpStateMqttHandler.constructor | src/backend/Mqtt/PumpStateMqttHandler.cs:20-30 | the handler holds its store, topics and hub |
| PumpStateHandling.PumpStateMqttHandler.CanHandle | src/backend/Mqtt/PumpStateMqttHandler.cs:35-36 | a topic is handled when it is ordinally equal to the pump-state topic. Handle is proved to change nothing for any other topic |
| PumpStateHandling.PumpStateMqttHandler.Handle | src/backend/Mqtt/PumpStateMqttHandler.cs:41-75 | one store update and one `PumpStateUpdated` for an accepted payload on its topic; nothing otherwise |
| SystemAlarmHandling.ParseAlarm | src/backend/Mqtt/SystemAlarmMqttHandler.cs:75-136 | invalid JSON and non-object roots are rejected |
| SystemAlarmHandling.AcceptsExactlyWellFormed | src/backend/Mqtt/SystemAlarmMqttHandler.cs:75-136 | accepted exactly when `type`, `severity`, `message` are non-blank strings and `raisedAt` is UTC; the payload carries them |
| SystemAlarmHandling.FirstBadTextReported | src/backend/Mqtt/SystemAlarmMqttHandler.cs:106-119 | the text properties are checked in the order `type`, `severity`, `message` |
| SystemAlarmHandling.UpdateOf | src/backend/Mqtt/SystemAlarmMqttHandler.cs:55-62 | the stored alarm has the parsed fields and `ReceivedAt = receivedAt` |
| SystemAlarmHandling.SystemAlarmMqttHandler.constructor | src/backend/Mqtt/SystemAlarmMqttHandler.cs:20-30 | the handler holds its store, topics and hub |
| SystemAlarmHandling.SystemAlarmMqttHandler.CanHandle | src/backend/Mqtt/SystemAlarmMqttHandler.cs:35-36 | a topic is handled when it is ordinally equal to the alarm topic. Handle is proved to change nothing for any other topic |
| SystemAlarmHandling.SystemAlarmMqttHandler.Handle | src/backend/Mqtt/SystemAlarmMqttHandler.cs:41-73 | an accepted alarm goes to the front of the store, one record goes to the repository, and one `AlarmRaised` is sent; on rejection nothing changes |
| PumpFirmware.PumpLogic.constructor | infra/firmware/pump-esp32/src/pump_logic.cpp:3-7 | not running, run length 0, level unknown |
| PumpFirmware.PumpLogic.UpdateWaterLevel | infra/firmware/pump-esp32/src/pump_logic.cpp:9-13 | only the two level fields change; the level is known exactly when the reading is >= 0 |
| PumpFirmware.PumpLogic.IsWaterLevelKnown | infra/firmware/pump-esp32/src/pump_logic.cpp:15-18 | the level is known when the last reading is not negative. UpdateWaterLevel is proved to make it known exactly on a reading >= 0, and the constructor starts it unknown |
| PumpFirmware.PumpLogic.IsWaterLevelStale | infra/firmware/pump-esp32/src/pump_logic.cpp:20-27 | an unknown level is stale; a known one is stale once the wrapped time since the reading exceeds the stale limit. Its properties are proved in SafeMeansKnownFreshPositive and FreshAcrossWrap |
| PumpFirmware.PumpLogic.IsWaterLevelSafe | infra/firmware/pump-esp32/src/pump_logic.cpp:29-32 | the level is safe when it is known, not stale, and above zero percent. SafeMeansKnownFreshPositive proves its closed form, and EvaluateCommand starts the pump only when it holds |
| PumpFirmware.PumpLogic.EvaluateCommand | infra/firmware/pump-esp32/src/pump_logic.cpp:34-56 | `stop` gives Stop whatever the level; Start exactly when safe and the duration is positive; the id is echoed |
| PumpFirmware.PumpLogic.OnMqttDisconnected | infra/firmware/pump-esp32/src/pump_logic.cpp:58-66 | Stop exactly when running, otherwise None; never Start |
| PumpFirmware.PumpLogic.ElapsedSeconds | infra/firmware/pump-esp32/src/pump_logic.cpp:80 | whole seconds of the wrapping difference, floored |
| PumpFirmware.PumpLogic.OnTick | infra/firmware/pump-esp32/src/pump_logic.cpp:68-87 | Stop exactly when running, the run length is non-zero and the elapsed time mod 2^32 has reached it |
| PumpFirmware.PumpLogic.ApplyDecision | infra/firmware/pump-esp32/src/pump_logic.cpp:89-105 | Start records the run; Stop clears only the running flag; None changes nothing; the level fields are never touched |
| PumpFirmware.SafeMeansKnownFreshPositive | infra/firmware/pump-esp32/src/pump_logic.cpp:15-32 | safe exactly when the reading is positive and no older than the stale limit mod 2^32; an unknown level is stale and never starts the pump |
| PumpFirmware.FreshAcrossWrap | infra/firmware/pump-esp32/src/pump_logic.cpp:20-27 | a reading taken just before the counter wraps is still fresh just after it |
| PumpFirmware.TimeoutAfterDuration | infra/firmware/pump-esp32/src/pump_logic.cpp:68-87 | a run is not stopped at its start instant, and is stopped exactly once its duration has elapsed, across a wrap too |
| LevelFirmware.WaterLevelLogic.constructor | infra/firmware/level-esp32/src/water_level_logic.cpp:3-8 | all sensors dry, last publish 0, so all-dry is not a change |
| LevelFirmware.WaterLevelLogic.BuildSnapshot | infra/firmware/level-esp32/src/water_level_logic.cpp:10-25 | the snapshot has the input sensors; percent = count*100/4, so it is one of 0, 25, 50, 75, 100 |
| LevelFirmware.WaterLevelLogic.HasChanged | infra/firmware/level-esp32/src/water_level_logic.cpp:27-30 | the readings differ from the last published ones. ChangedIffSomePositionDiffers proves it means some position differs; MarkPublished and the constructor state when it is false |
| LevelFirmware.WaterLevelLogic.ShouldPublish | infra/firmware/level-esp32/src/water_level_logic.cpp:32-40 | publish on a change, or once the wrapped time since the last publish reaches the interval. PeriodicPublish proves the interval threshold across a wrap, and MarkPublished states its value right after a publish |
| LevelFirmware.WaterLevelLogic.MarkPublished | infra/firmware/level-esp32/src/water_level_logic.cpp:42-46 | both fields set; the same sensors are no longer a change |
| LevelFirmware.ChangedIffSomePositionDiffers | infra/firmware/level-esp32/src/water_level_logic.cpp:27-30 | changed exactly when some position differs |
| LevelFirmware.PeriodicPublish | infra/firmware/level-esp32/src/water_level_logic.cpp:32-40 | without a change, publish exactly once the elapsed time mod 2^32 reaches the interval |
| LegacyWaterLevel.HighestDetecting | WateringApplication.Common/Objects/WaterLevelController.cs:47 | over sensors sorted by descending level, the level of the first one detecting water, or none. HighestDetectingIsMaximum proves it is the maximum detecting level |
| LegacyWaterLevel.HighestDetectingIsMaximum | WateringApplication.Common/Objects/WaterLevelController.cs:47-48 | the selection is a detecting sensor's level, no detecting level is higher in the enum's values (`WaterLevel.cs` lines 11-14), and none is found exactly when nothing detects water |
| LegacyWaterLevel.LevelOf | WateringApplication.Common/Objects/WaterLevelController.cs:47-48 | the tank level is the highest detecting level, or `Empty` when none detects. Its properties are proved in LevelDependsOnlyOnDetectingSet and AssignedLevels, and OnSensorStateIsChanged sets the level to it |
| LegacyWaterLevel.LevelDependsOnlyOnDetectingSet | WateringApplication.Common/Objects/WaterLevelController.cs:44-48 | equal sets of detecting levels give equal tank levels, whichever sensor fired |
| LegacyWaterLevel.AssignedLevels | WateringApplication.Common/Objects/WaterLevelController.cs:33-48 | with the assigned levels, the highest detecting sensor wins, and no detection means `Empty` |
| LegacyWaterLevel.WaterLevelController.constructor | WateringApplication.Common/Objects/WaterLevelController.cs:30-42 | the sensors are assigned Empty, Low, Medium, Full; the level is the enum default `Empty` until the first notification; no event yet |
| LegacyWaterLevel.WaterLevelController.OnSensorStateIsChanged | WateringApplication.Common/Objects/WaterLevelController.cs:44-50 | the level is `LevelOf` the detections, and exactly one event with it is raised |
| LegacyPumpEngine.PumpEngineController.constructor | WateringApplication.Common/Objects/PumpEngineController.cs:30-42 | the relay is written low once; no event |
| LegacyPumpEngine.PumpEngineController.StartPump | WateringApplication.Common/Objects/PumpEngineController.cs:44-66 | from Stopped with water: relay high, Running, one event; otherwise nothing changes; returns the new status; the relay keeps matching the status |
| LegacyPumpEngine.PumpEngineController.StopPump | WateringApplication.Common/Objects/PumpEngineController.cs:67-86 | from Running: relay low, Stopped, one event; from Stopped nothing changes; returns `Stopped`; the relay keeps matching the status |

## Left out

- Timer loops (`ExecuteAsync` of the scheduler and the monitor), `PeriodicTimer` and cancellation are not modelled; one tick of each is.
- SQLite persistence is reduced to in-memory sequences: the schedule rows, the run-history entries and the alarm inserts. SQL, connections and database-assigned ids are not modelled.
- The grammars of `JsonDocument.Parse`, `DateTimeOffset.TryParse`, `TimeSpan.TryParse` and `ToString("yyyy-MM-dd")` are parameters or inputs. A JSON object that repeats a property name is not modelled, since objects are maps. JSON serialisation of outbound payloads is replaced by structured records.
- `TimeSpan` values are whole seconds, so sub-second start times and ages are not modelled.
- Case-insensitive token comparison folds ASCII letters only; Unicode case mapping is not modelled.
- Logging, the SignalR hub's transport and the MQTT client's network behaviour are not modelled. The publisher keeps only its drop-when-disconnected rule.
- Locks in the stores and the connection tracker are not modelled: each operation is atomic, and there is no concurrency.
- Commands.PumpCommandService.StopForSafety: `StopForSafetyAsync` is not part of this model. Its success is an input, and its publish follows the publisher's connection rule.
- Scheduling.ScheduleService.EvaluateSchedules: every `DateTimeOffset.UtcNow` reading inside one tick (command and alarm times) is one value `wallNow`. The connection flag and the water-level verdict are taken as fixed for the tick. The scheduler's scheduled-start, alarm and monitor services share one publisher, as the application wires them.
- Scheduling.ScheduleRepository.GetAll: the `ORDER BY id` of the query is not modelled. The rows come back in the order the repository holds them.
- The early `return` on an empty schedule list is not a separate branch; the loop over no rows does the same.
- Scheduling.ScheduleService.EvaluateSchedules: it requires the schedule ids to be unique, as the table's primary key guarantees.
- Scheduling.ScheduleService.RaiseBlockedAlarms: the two alarm `if`s are written as exclusive branches; no reason satisfies both.
- The `isRetained` flag of the three handlers is only logged by the source. The model takes it and ignores it.
- WaterLevelHandling.WaterLevelMqttHandler.Handle, PumpStateHandling.PumpStateMqttHandler.Handle and SystemAlarmHandling.SystemAlarmMqttHandler.Handle: the raw payload bytes are the parsed document (`None` when the bytes are not JSON). The JSON parse options (no trailing commas, no comments) are part of the JSON grammar left out above.
- PumpStateHandling.AcceptsExactlyWellFormed: `lastRunSeconds` is accepted with either sign, as the code does; the record description of the system says it is non-negative.
- The firmware's I/O (`main.cpp`: WiFi, MQTT, relay and sensor pins, NTP) and `PumpLogic::State()` accessor are not modelled; the state is the class's field.
- LevelFirmware.WaterLevelLogic: the `LastSensors()`/`LastPublishMs()` accessors are the fields themselves.
- LegacyPumpEngine: the `PumpStatus` enum's declaration is not part of this model. Its members are the two the code names, and the initial `Status` is not assumed. The `WaterLevel` enum comes from `WaterLevel.cs` lines 11-14: `Empty = 0`, `Low = 1`, `Medium = 2`, `Full = 3`.
- LegacyWaterLevel.WaterLevelController.OnSensorStateIsChanged: the sensors' `WaterIsDetected` values are its input. The GPIO pin wiring of `WaterLevelSensor` is not modelled. An event raised with no subscriber is still logged.
- LegacyPumpEngine.PumpEngineController: the GPIO controller is reduced to the log of values written to pin 11. Opening the pin, its drive mode and the exceptions it may throw (re-thrown by the source) are not modelled. An event raised with no subscriber is still logged.
