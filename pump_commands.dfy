/** `PumpCommandService`: the gate every pump command passes. A start is
    checked for its duration, then for the broker connection, then against
    the latest water level; a stop only needs the connection. A command is
    published, not retained, only when every check passes. */
module Commands {
  import opened Base
  import opened Contracts
  import opened Topics
  import opened StateStores

  /** The default of `SafetyOptions.WaterLevelStaleMinutes`. */
  const DEFAULT_STALE_MINUTES: int := 10

  const DURATION_ERROR: string := "runSeconds must be greater than zero."
  const DISCONNECTED_ERROR: string := "MQTT broker is not connected."
  const UNKNOWN_ERROR: string := "Water level is unknown."
  const STALE_ERROR: string := "Water level is stale."
  const EMPTY_ERROR: string := "Water level is empty."

  /** The `(Allowed, Error, Reason)` tuple of `EvaluateSafety`. */
  datatype SafetyVerdict = SafetyVerdict(allowed: bool, error: Option<string>, reason: string)

  /** The age of a snapshot, in seconds: the difference of the two instants,
      whatever offsets they carry. */
  function Age(now: DateTimeOffset, receivedAt: DateTimeOffset): int
  {
    now.utcSeconds - receivedAt.utcSeconds
  }

  /** `age > TimeSpan.FromMinutes(staleMinutes)`: strictly older than the
      threshold. */
  predicate IsStale(snapshot: WaterLevelSnapshot, now: DateTimeOffset, staleMinutes: int)
  {
    Age(now, snapshot.receivedAt) > staleMinutes * 60
  }

  /** The water level a start may go ahead on: known, fresh, not empty. */
  predicate IsSafeLevel(latest: Option<WaterLevelSnapshot>, now: DateTimeOffset, staleMinutes: int)
  {
    latest.Some? && !IsStale(latest.value, now, staleMinutes) && latest.value.payload.levelPercent > 0
  }

  /** `EvaluateSafety`: the first failing tier, unknown before stale before
      empty, decides the verdict. */
  function EvaluateSafety(latest: Option<WaterLevelSnapshot>, now: DateTimeOffset, staleMinutes: int)
    : (v: SafetyVerdict)
    ensures v.allowed <==> IsSafeLevel(latest, now, staleMinutes)
    ensures v.allowed ==> v == SafetyVerdict(true, None, "ok")
    ensures latest.None? ==> v == SafetyVerdict(false, Some(UNKNOWN_ERROR), "level_unknown")
    ensures (latest.Some? && IsStale(latest.value, now, staleMinutes))
              ==> v == SafetyVerdict(false, Some(STALE_ERROR), "level_stale")
    ensures (latest.Some? && !IsStale(latest.value, now, staleMinutes) && latest.value.payload.levelPercent <= 0)
              ==> v == SafetyVerdict(false, Some(EMPTY_ERROR), "level_empty")
  {
    if latest.None? then SafetyVerdict(false, Some(UNKNOWN_ERROR), "level_unknown")
    else if IsStale(latest.value, now, staleMinutes) then SafetyVerdict(false, Some(STALE_ERROR), "level_stale")
    else if latest.value.payload.levelPercent <= 0 then SafetyVerdict(false, Some(EMPTY_ERROR), "level_empty")
    else SafetyVerdict(true, None, "ok")
  }

  /** A verdict that blocks names one of the three level reasons. */
  lemma BlockedReasons(latest: Option<WaterLevelSnapshot>, now: DateTimeOffset, staleMinutes: int)
    ensures var v := EvaluateSafety(latest, now, staleMinutes);
      !v.allowed ==> v.reason in {"level_unknown", "level_stale", "level_empty"} && v.error.Some?
  {
  }

  /** A snapshot exactly `staleMinutes` old is still fresh, and one a second
      older is stale. */
  lemma StaleBoundary(snapshot: WaterLevelSnapshot, staleMinutes: int)
    ensures var atLimit := DateTimeOffset(snapshot.receivedAt.utcSeconds + staleMinutes * 60, 0);
      EvaluateSafety(Some(snapshot), atLimit, staleMinutes).reason != "level_stale"
    ensures var past := DateTimeOffset(snapshot.receivedAt.utcSeconds + staleMinutes * 60 + 1, 0);
      EvaluateSafety(Some(snapshot), past, staleMinutes) == SafetyVerdict(false, Some(STALE_ERROR), "level_stale")
  {
  }

  /** Which start operation is asking. */
  datatype StartKind = Manual | Scheduled

  /** The reason a successful start reports and puts in its command. */
  function StartReason(kind: StartKind): string
  {
    match kind
    case Manual => "manual"
    case Scheduled => "schedule"
  }

  /** The result of `StartManualAsync` or `StartScheduledAsync` given the
      duration, the connection flag, the safety verdict and the id the
      command would carry. */
  function StartResult(kind: StartKind, runSeconds: int, connected: bool, verdict: SafetyVerdict, id: RequestId)
    : (r: PumpCommandResult)
    ensures r.success <==> runSeconds > 0 && connected && verdict.allowed
    ensures r.success ==> r == PumpCommandResult(true, None, Some(id), Some(StartReason(kind)))
    ensures !r.success ==> r.requestId == None
    ensures runSeconds <= 0 ==> r.error == Some(DURATION_ERROR)
                                && r.reason == (if kind == Manual then None else Some("invalid_duration"))
    ensures (runSeconds > 0 && !connected)
              ==> r == PumpCommandResult(false, Some(DISCONNECTED_ERROR), None, Some("mqtt_disconnected"))
    ensures (runSeconds > 0 && connected && !verdict.allowed)
              ==> r == PumpCommandResult(false, verdict.error, None, Some(verdict.reason))
  {
    if runSeconds <= 0 then
      PumpCommandResult(false, Some(DURATION_ERROR), None, if kind == Manual then None else Some("invalid_duration"))
    else if !connected then
      PumpCommandResult(false, Some(DISCONNECTED_ERROR), None, Some("mqtt_disconnected"))
    else if !verdict.allowed then
      PumpCommandResult(false, verdict.error, None, Some(verdict.reason))
    else
      PumpCommandResult(true, None, Some(id), Some(StartReason(kind)))
  }

  /** The start command a successful start publishes. */
  function StartCommand(kind: StartKind, runSeconds: int32, id: RequestId, issuedAt: DateTimeOffset)
    : (c: PumpCommandRequest)
    ensures c.action == "start" && c.runSeconds == Some(runSeconds)
    ensures c.requestId == id && c.reason == StartReason(kind) && c.issuedAt == issuedAt
  {
    PumpCommandRequest("start", Some(runSeconds), id, StartReason(kind), issuedAt)
  }

  /** The non-retained message carrying a command to the pump. */
  function CommandMessage(topics: MqttTopics, c: PumpCommandRequest): (m: Message)
    ensures m.topic == topics.pumpCommand && !m.retain && m.payload == CommandPayload(c)
  {
    Message(topics.pumpCommand, CommandPayload(c), false)
  }

  /** The connection is checked before the water level: while disconnected a
      valid start names the connection whatever the level. */
  lemma DisconnectedBeforeLevel(kind: StartKind, runSeconds: int, v1: SafetyVerdict, v2: SafetyVerdict, id: RequestId)
    requires runSeconds > 0
    ensures StartResult(kind, runSeconds, false, v1, id) == StartResult(kind, runSeconds, false, v2, id)
    ensures StartResult(kind, runSeconds, false, v1, id).reason == Some("mqtt_disconnected")
  {
  }

  /** The duration is checked first: a non-positive duration fails the same
      way whatever the connection and the water level. */
  lemma DurationFirst(kind: StartKind, runSeconds: int, c1: bool, c2: bool, v1: SafetyVerdict, v2: SafetyVerdict, id: RequestId)
    requires runSeconds <= 0
    ensures StartResult(kind, runSeconds, c1, v1, id) == StartResult(kind, runSeconds, c2, v2, id)
  {
  }

  /** Every command in a message log carries an id below `next`. */
  predicate CommandIdsBelow(log: seq<Message>, next: nat)
  {
    forall i :: 0 <= i < |log| && log[i].payload.CommandPayload? ==> log[i].payload.command.requestId < next
  }

  /** The command ids in a log increase in publish order, so no two
      commands share an id. */
  predicate CommandIdsIncreasing(log: seq<Message>)
  {
    forall i, j :: 0 <= i < j < |log| && log[i].payload.CommandPayload? && log[j].payload.CommandPayload?
      ==> log[i].payload.command.requestId < log[j].payload.command.requestId
  }

  /** Appending a message whose command, if any, takes the next id keeps the
      ids fresh and distinct. */
  lemma AppendKeepsIdsFresh(log: seq<Message>, next: nat, extra: seq<Message>, next': nat)
    requires CommandIdsBelow(log, next) && CommandIdsIncreasing(log)
    requires |extra| <= 1 && next <= next'
    requires forall k :: 0 <= k < |extra| && extra[k].payload.CommandPayload?
               ==> next <= extra[k].payload.command.requestId < next'
    ensures CommandIdsBelow(log + extra, next') && CommandIdsIncreasing(log + extra)
  {
    var l := log + extra;
    forall i, j | 0 <= i < j < |l| && l[i].payload.CommandPayload? && l[j].payload.CommandPayload?
      ensures l[i].payload.command.requestId < l[j].payload.command.requestId
    {
      if j >= |log| {
        assert l[j] == extra[j - |log|];
        assert l[i] == log[i];
      }
    }
  }

  class PumpCommandService {
    const publisher: Publisher
    const waterLevelStore: WaterLevelStateStore
    const staleMinutes: int
    const topics: MqttTopics
    /** The id the next command takes; it stands for `Guid.NewGuid()`. */
    var nextRequestId: RequestId

    constructor (publisher: Publisher, waterLevelStore: WaterLevelStateStore, staleMinutes: int, topics: MqttTopics)
      ensures this.publisher == publisher && this.waterLevelStore == waterLevelStore
      ensures this.staleMinutes == staleMinutes && this.topics == topics && nextRequestId == 0
    {
      this.publisher := publisher;
      this.waterLevelStore := waterLevelStore;
      this.staleMinutes := staleMinutes;
      this.topics := topics;
      nextRequestId := 0;
    }

    /** The ids already handed out are below `nextRequestId` and distinct. */
    ghost predicate IdsFresh()
      reads this, publisher
    {
      CommandIdsBelow(publisher.log, nextRequestId) && CommandIdsIncreasing(publisher.log)
    }

    /** `StartManualAsync(runSeconds)`/`StartScheduledAsync(runSeconds)`:
        `now` is the service's clock and `issuedAt` the command's
        `DateTimeOffset.UtcNow`. Exactly one command is published on success
        and none otherwise; the water-level store is only read. */
    method Start(kind: StartKind, runSeconds: int32, now: DateTimeOffset, issuedAt: DateTimeOffset)
      returns (r: PumpCommandResult)
      modifies publisher`log, this`nextRequestId
      ensures r == StartResult(kind, runSeconds, publisher.isConnected,
                               EvaluateSafety(waterLevelStore.latest, now, staleMinutes), old(nextRequestId))
      ensures r.success ==> publisher.log == old(publisher.log)
                              + [CommandMessage(topics, StartCommand(kind, runSeconds, old(nextRequestId), issuedAt))]
                            && nextRequestId == old(nextRequestId) + 1
      ensures !r.success ==> publisher.log == old(publisher.log) && nextRequestId == old(nextRequestId)
      ensures old(IdsFresh()) ==> IdsFresh()
    {
      if runSeconds <= 0 {
        return PumpCommandResult(false, Some(DURATION_ERROR), None, if kind == Manual then None else Some("invalid_duration"));
      }
      if !publisher.isConnected {
        return PumpCommandResult(false, Some(DISCONNECTED_ERROR), None, Some("mqtt_disconnected"));
      }
      var latest := waterLevelStore.GetLatest();
      var safety := EvaluateSafety(latest, now, staleMinutes);
      if !safety.allowed {
        return PumpCommandResult(false, safety.error, None, Some(safety.reason));
      }
      var command := StartCommand(kind, runSeconds, nextRequestId, issuedAt);
      ghost var before := publisher.log;
      publisher.Publish(topics.pumpCommand, CommandPayload(command), false);
      if CommandIdsBelow(before, nextRequestId) && CommandIdsIncreasing(before) {
        AppendKeepsIdsFresh(before, nextRequestId, [CommandMessage(topics, command)], nextRequestId + 1);
      }
      nextRequestId := nextRequestId + 1;
      r := PumpCommandResult(true, None, Some(command.requestId), Some(StartReason(kind)));
    }

    /** `StartManualAsync(runSeconds)`. */
    method StartManual(runSeconds: int32, now: DateTimeOffset, issuedAt: DateTimeOffset)
      returns (r: PumpCommandResult)
      modifies publisher`log, this`nextRequestId
      ensures r == StartResult(Manual, runSeconds, publisher.isConnected,
                               EvaluateSafety(waterLevelStore.latest, now, staleMinutes), old(nextRequestId))
      ensures r.success ==> publisher.log == old(publisher.log)
                              + [CommandMessage(topics, StartCommand(Manual, runSeconds, old(nextRequestId), issuedAt))]
                            && nextRequestId == old(nextRequestId) + 1
      ensures !r.success ==> publisher.log == old(publisher.log) && nextRequestId == old(nextRequestId)
      ensures old(IdsFresh()) ==> IdsFresh()
    {
      r := Start(Manual, runSeconds, now, issuedAt);
    }

    /** `StartScheduledAsync(runSeconds)`. */
    method StartScheduled(runSeconds: int32, now: DateTimeOffset, issuedAt: DateTimeOffset)
      returns (r: PumpCommandResult)
      modifies publisher`log, this`nextRequestId
      ensures r == StartResult(Scheduled, runSeconds, publisher.isConnected,
                               EvaluateSafety(waterLevelStore.latest, now, staleMinutes), old(nextRequestId))
      ensures r.success ==> publisher.log == old(publisher.log)
                              + [CommandMessage(topics, StartCommand(Scheduled, runSeconds, old(nextRequestId), issuedAt))]
                            && nextRequestId == old(nextRequestId) + 1
      ensures !r.success ==> publisher.log == old(publisher.log) && nextRequestId == old(nextRequestId)
      ensures old(IdsFresh()) ==> IdsFresh()
    {
      r := Start(Scheduled, runSeconds, now, issuedAt);
    }

    /** `StopManualAsync`: decided by the connection alone; the water-level
        store is not consulted. */
    method StopManual(issuedAt: DateTimeOffset) returns (r: PumpCommandResult)
      modifies publisher`log, this`nextRequestId
      ensures r.success <==> publisher.isConnected
      ensures r.success ==> r == PumpCommandResult(true, None, Some(old(nextRequestId)), Some("manual_stop"))
                            && publisher.log == old(publisher.log)
                               + [CommandMessage(topics, PumpCommandRequest("stop", None, old(nextRequestId), "manual_stop", issuedAt))]
                            && nextRequestId == old(nextRequestId) + 1
      ensures !r.success ==> r == PumpCommandResult(false, Some(DISCONNECTED_ERROR), None, Some("mqtt_disconnected"))
                             && publisher.log == old(publisher.log) && nextRequestId == old(nextRequestId)
      ensures old(IdsFresh()) ==> IdsFresh()
    {
      if !publisher.isConnected {
        return PumpCommandResult(false, Some(DISCONNECTED_ERROR), None, Some("mqtt_disconnected"));
      }
      var command := PumpCommandRequest("stop", None, nextRequestId, "manual_stop", issuedAt);
      ghost var before := publisher.log;
      publisher.Publish(topics.pumpCommand, CommandPayload(command), false);
      if CommandIdsBelow(before, nextRequestId) && CommandIdsIncreasing(before) {
        AppendKeepsIdsFresh(before, nextRequestId, [CommandMessage(topics, command)], nextRequestId + 1);
      }
      nextRequestId := nextRequestId + 1;
      r := PumpCommandResult(true, None, Some(command.requestId), Some("manual_stop"));
    }

    /** `StopForSafetyAsync(reason)`, whose body is not part of this model:
        whether it succeeds is the input `accepted`. When it does, a
        non-retained stop with reason `safety_stop:<reason>` is handed to
        the publisher whatever the water level. */
    method StopForSafety(reason: string, issuedAt: DateTimeOffset, accepted: bool) returns (r: PumpCommandResult)
      modifies publisher`log, this`nextRequestId
      ensures r.success == accepted
      ensures accepted ==> r.requestId == Some(old(nextRequestId))
                           && publisher.log == old(publisher.log)
                              + (if publisher.isConnected
                                 then [CommandMessage(topics, PumpCommandRequest("stop", None, old(nextRequestId), "safety_stop:" + reason, issuedAt))]
                                 else [])
                           && nextRequestId == old(nextRequestId) + 1
      ensures !accepted ==> r.requestId == None && publisher.log == old(publisher.log)
                            && nextRequestId == old(nextRequestId)
      ensures old(IdsFresh()) ==> IdsFresh()
    {
      if !accepted {
        return PumpCommandResult(false, None, None, Some("safety_stop:" + reason));
      }
      var command := PumpCommandRequest("stop", None, nextRequestId, "safety_stop:" + reason, issuedAt);
      ghost var before := publisher.log;
      publisher.Publish(topics.pumpCommand, CommandPayload(command), false);
      if CommandIdsBelow(before, nextRequestId) && CommandIdsIncreasing(before) {
        AppendKeepsIdsFresh(before, nextRequestId, publisher.log[|before|..], nextRequestId + 1);
      }
      assert publisher.log == before + publisher.log[|before|..];
      nextRequestId := nextRequestId + 1;
      r := PumpCommandResult(true, None, Some(command.requestId), Some("safety_stop:" + reason));
    }
  }
}
