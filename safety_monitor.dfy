/** `PumpSafetyMonitorService`: on every tick, while the pump reports that
    it is running on an unsafe water level, issues one safety stop and one
    alarm per unsafe episode. Its only memory is the unsafe reason it last
    handled. One tick is modelled; the timer loop is not. */
module SafetyMonitor {
  import opened Base
  import opened Contracts
  import opened Topics
  import opened StateStores
  import opened Alarms
  import opened AlarmRaising
  import opened Commands

  /** The `(Allowed, Reason)` tuple of `EvaluateWaterLevelSafety`. */
  datatype MonitorVerdict = MonitorVerdict(allowed: bool, reason: string)

  /** `EvaluateWaterLevelSafety`: unknown before stale before empty. */
  function EvaluateWaterLevelSafety(latest: Option<WaterLevelSnapshot>, now: DateTimeOffset, staleMinutes: int)
    : (v: MonitorVerdict)
    ensures v.allowed <==> IsSafeLevel(latest, now, staleMinutes)
    ensures v.allowed ==> v.reason == "ok"
    ensures latest.None? ==> v == MonitorVerdict(false, "level_unknown")
    ensures (latest.Some? && IsStale(latest.value, now, staleMinutes)) ==> v == MonitorVerdict(false, "level_stale")
    ensures (latest.Some? && !IsStale(latest.value, now, staleMinutes) && latest.value.payload.levelPercent <= 0)
            ==> v == MonitorVerdict(false, "level_empty")
  {
    if latest.None? then MonitorVerdict(false, "level_unknown")
    else if Age(now, latest.value.receivedAt) > staleMinutes * 60 then MonitorVerdict(false, "level_stale")
    else if latest.value.payload.levelPercent <= 0 then MonitorVerdict(false, "level_empty")
    else MonitorVerdict(true, "ok")
  }

  /** The monitor classifies water levels exactly as the command gate does:
      same tiers, same order, same reasons. */
  lemma MonitorAgreesWithGate(latest: Option<WaterLevelSnapshot>, now: DateTimeOffset, staleMinutes: int)
    ensures EvaluateWaterLevelSafety(latest, now, staleMinutes).allowed == EvaluateSafety(latest, now, staleMinutes).allowed
    ensures EvaluateWaterLevelSafety(latest, now, staleMinutes).reason == EvaluateSafety(latest, now, staleMinutes).reason
  {
  }

  /** `MapAlarm`: an empty tank is `LOW_WATER`; any other reason, stale or
      unknown, is `LEVEL_UNKNOWN`. */
  function MapAlarm(reason: string): (a: AlarmText)
    ensures reason == "level_empty" ==> a == AlarmText("LOW_WATER", "Pump auto-stopped due to low water level")
    ensures reason == "level_stale" ==> a == AlarmText("LEVEL_UNKNOWN", "Pump auto-stopped due to stale water level data")
    ensures (reason != "level_empty" && reason != "level_stale")
              ==> a == AlarmText("LEVEL_UNKNOWN", "Pump auto-stopped due to unknown water level")
    ensures a.alarmType == "LOW_WATER" <==> reason == "level_empty"
  {
    if reason == "level_empty" then AlarmText("LOW_WATER", "Pump auto-stopped due to low water level")
    else if reason == "level_stale" then AlarmText("LEVEL_UNKNOWN", "Pump auto-stopped due to stale water level data")
    else AlarmText("LEVEL_UNKNOWN", "Pump auto-stopped due to unknown water level")
  }

  /** What a tick does: forget the remembered reason, keep it and do
      nothing, or attempt a safety stop for a new reason. */
  datatype TickAction = Forget | Keep | StopFor(reason: string)

  predicate IsRunning(pump: Option<PumpStateSnapshot>)
  {
    pump.Some? && pump.value.payload.running
  }

  /** The branch structure of `EvaluateRunningPumpSafetyAsync`. */
  function TickDecision(pump: Option<PumpStateSnapshot>, verdict: MonitorVerdict, last: Option<string>)
    : (a: TickAction)
    ensures a == Forget <==> !IsRunning(pump) || verdict.allowed
    ensures a == Keep <==> IsRunning(pump) && !verdict.allowed && last == Some(verdict.reason)
    ensures a.StopFor? ==> a.reason == verdict.reason && last != Some(verdict.reason)
  {
    if !IsRunning(pump) then Forget
    else if verdict.allowed then Forget
    else if last == Some(verdict.reason) then Keep
    else StopFor(verdict.reason)
  }

  /** The remembered reason after a tick: cleared on `Forget`, set only by
      a stop that succeeded, unchanged otherwise. */
  function NextMemory(a: TickAction, last: Option<string>, stopSucceeded: bool): (m: Option<string>)
    ensures a == Forget ==> m == None
    ensures a == Keep ==> m == last
    ensures a.StopFor? ==> m == if stopSucceeded then Some(a.reason) else last
  {
    match a
    case Forget => None
    case Keep => last
    case StopFor(r) => if stopSucceeded then Some(r) else last
  }

  /** Two ticks in the same unsafe state, the first stop succeeding: one
      stop, then nothing. */
  lemma RepeatedTickIsSilent(pump: Option<PumpStateSnapshot>, verdict: MonitorVerdict, last: Option<string>)
    requires TickDecision(pump, verdict, last).StopFor?
    ensures TickDecision(pump, verdict, NextMemory(TickDecision(pump, verdict, last), last, true)) == Keep
  {
  }

  /** A failed stop leaves the memory as it was, so the next tick in the
      same state tries again. */
  lemma FailedStopIsRetried(pump: Option<PumpStateSnapshot>, verdict: MonitorVerdict, last: Option<string>)
    requires TickDecision(pump, verdict, last).StopFor?
    ensures NextMemory(TickDecision(pump, verdict, last), last, false) == last
    ensures TickDecision(pump, verdict, NextMemory(TickDecision(pump, verdict, last), last, false))
            == TickDecision(pump, verdict, last)
  {
  }

  /** Unsafe, then safe, then the same unsafe reason: the safe tick clears
      the memory, so the third tick stops the pump again. */
  lemma UnsafeSafeUnsafeStopsTwice(pump: Option<PumpStateSnapshot>, bad: MonitorVerdict, good: MonitorVerdict,
                                   last: Option<string>)
    requires IsRunning(pump) && !bad.allowed && good.allowed && last != Some(bad.reason)
    ensures var m1 := NextMemory(TickDecision(pump, bad, last), last, true);
      var m2 := NextMemory(TickDecision(pump, good, m1), m1, true);
      TickDecision(pump, bad, last) == StopFor(bad.reason) && TickDecision(pump, good, m1) == Forget
      && TickDecision(pump, bad, m2) == StopFor(bad.reason)
  {
  }

  /** One tick of a run: the pump snapshot and water-level verdict it sees,
      and whether its safety stop, if it attempts one, succeeds. */
  datatype Tick = Tick(pump: Option<PumpStateSnapshot>, verdict: MonitorVerdict, stopSucceeds: bool)

  /** The unsafe reason a tick is in, if the pump is running unsafely. */
  function Condition(t: Tick): Option<string>
  {
    if IsRunning(t.pump) && !t.verdict.allowed then Some(t.verdict.reason) else None
  }

  /** The memory after a run of ticks. */
  function MemoryAfter(ticks: seq<Tick>, initial: Option<string>): Option<string>
    decreases |ticks|
  {
    if ticks == [] then initial
    else
      var t := ticks[|ticks| - 1];
      var before := MemoryAfter(ticks[..|ticks| - 1], initial);
      NextMemory(TickDecision(t.pump, t.verdict, before), before, t.stopSucceeds)
  }

  /** Whether tick `i` of a run attempts a safety stop. */
  predicate StopsAt(ticks: seq<Tick>, i: nat, initial: Option<string>)
    requires i < |ticks|
  {
    TickDecision(ticks[i].pump, ticks[i].verdict, MemoryAfter(ticks[..i], initial)).StopFor?
  }

  /** When every stop succeeds, the memory is the condition of the latest
      tick. */
  lemma {:induction false} MemoryTracksCondition(ticks: seq<Tick>)
    requires forall i :: 0 <= i < |ticks| ==> ticks[i].stopSucceeds
    ensures MemoryAfter(ticks, None) == if ticks == [] then None else Condition(ticks[|ticks| - 1])
    decreases |ticks|
  {
    if ticks != [] {
      MemoryTracksCondition(ticks[..|ticks| - 1]);
    }
  }

  /** One stop per unsafe episode: from a fresh monitor, with every stop
      succeeding, tick `i` stops the pump exactly when the pump is running
      unsafely and tick `i - 1` was not in that same unsafe state. */
  lemma OneStopPerEpisode(ticks: seq<Tick>, i: nat)
    requires forall k :: 0 <= k < |ticks| ==> ticks[k].stopSucceeds
    requires i < |ticks|
    ensures StopsAt(ticks, i, None)
            <==> Condition(ticks[i]).Some? && (i == 0 || Condition(ticks[i - 1]) != Condition(ticks[i]))
  {
    var prefix := ticks[..i];
    MemoryTracksCondition(prefix);
    if i > 0 {
      assert prefix[|prefix| - 1] == ticks[i - 1];
    }
  }

  class PumpSafetyMonitor {
    const pumpStore: PumpStateStore
    const waterLevelStore: WaterLevelStateStore
    const commands: PumpCommandService
    const alarmService: AlarmService
    const staleMinutes: int
    /** `_lastHandledUnsafeReason`. */
    var lastHandledUnsafeReason: Option<string>

    constructor (pumpStore: PumpStateStore, waterLevelStore: WaterLevelStateStore, commands: PumpCommandService,
                 alarmService: AlarmService, staleMinutes: int)
      ensures this.pumpStore == pumpStore && this.waterLevelStore == waterLevelStore
      ensures this.commands == commands && this.alarmService == alarmService && this.staleMinutes == staleMinutes
      ensures lastHandledUnsafeReason == None
    {
      this.pumpStore := pumpStore;
      this.waterLevelStore := waterLevelStore;
      this.commands := commands;
      this.alarmService := alarmService;
      this.staleMinutes := staleMinutes;
      lastHandledUnsafeReason := None;
    }

    /** `EvaluateRunningPumpSafetyAsync`, one tick. `now` is the service's
        clock; `issuedAt`, `raisedAt` and `receivedAt` are the readings of
        `DateTimeOffset.UtcNow` taken by the stop command and the alarm;
        `stopAccepted` is the outcome of `StopForSafetyAsync`. Both services
        publish through the one `IMqttPublisher` of the application. */
    method EvaluateRunningPumpSafety(now: DateTimeOffset, issuedAt: DateTimeOffset, raisedAt: DateTimeOffset,
                                     receivedAt: DateTimeOffset, stopAccepted: bool)
      requires commands.publisher == alarmService.publisher
      modifies this, commands`nextRequestId, commands.publisher`log, alarmService.store,
               alarmService.store.repository
      ensures var a := TickDecision(pumpStore.latest, EvaluateWaterLevelSafety(waterLevelStore.latest, now, staleMinutes),
                                    old(lastHandledUnsafeReason));
        lastHandledUnsafeReason == NextMemory(a, old(lastHandledUnsafeReason), stopAccepted)
        && (a.StopFor? && stopAccepted ==>
              var text := MapAlarm(a.reason);
              var alarm := SystemAlarmPayload(text.alarmType, SEVERITY_WARNING, text.message, raisedAt);
              commands.publisher.log == old(commands.publisher.log)
                + Delivered(commands.publisher.isConnected,
                            CommandMessage(commands.topics,
                                           PumpCommandRequest("stop", None, old(commands.nextRequestId),
                                                              "safety_stop:" + a.reason, issuedAt)))
                + Delivered(commands.publisher.isConnected, AlarmMessage(alarmService.topics, alarm))
              && alarmService.store.alarms == Added(old(alarmService.store.alarms), StoredAlarm(alarm, receivedAt),
                                                    alarmService.store.maxCount)
              && alarmService.store.repository.inserts == old(alarmService.store.repository.inserts)
                   + [ToRecord(StoredAlarm(alarm, receivedAt))]
              && commands.nextRequestId == old(commands.nextRequestId) + 1)
        && (!(a.StopFor? && stopAccepted) ==>
              commands.publisher.log == old(commands.publisher.log)
              && alarmService.store.alarms == old(alarmService.store.alarms)
              && alarmService.store.repository.inserts == old(alarmService.store.repository.inserts)
              && commands.nextRequestId == old(commands.nextRequestId))
      ensures old(alarmService.store.Valid()) ==> alarmService.store.Valid()
    {
      var pumpSnapshot := pumpStore.GetLatest();
      if pumpSnapshot.None? || !pumpSnapshot.value.payload.running {
        lastHandledUnsafeReason := None;
        return;
      }
      var latest := waterLevelStore.GetLatest();
      var safety := EvaluateWaterLevelSafety(latest, now, staleMinutes);
      if safety.allowed {
        lastHandledUnsafeReason := None;
        return;
      }
      if lastHandledUnsafeReason == Some(safety.reason) {
        return;
      }
      var stopResult := commands.StopForSafety(safety.reason, issuedAt, stopAccepted);
      if !stopResult.success {
        return;
      }
      lastHandledUnsafeReason := Some(safety.reason);
      var text := MapAlarm(safety.reason);
      alarmService.Raise(text.alarmType, SEVERITY_WARNING, text.message, raisedAt, receivedAt);
    }
  }
}
