/** `PumpLogic` of the pump firmware: the hardware-free decisions of the
    ESP32 that drives the relay. Times are the `millis()` counter, a
    `uint32_t` that wraps, so every difference of two times is taken
    modulo 2^32. */
module PumpFirmware {
  import Base

  type uint32 = Base.uint32
  type int32 = Base.int32

  /** `PumpDecision::Action`. */
  datatype Action = None | Start | Stop

  /** `PumpDecision`. */
  datatype PumpDecision = PumpDecision(action: Action, runSeconds: uint32, requestId: string)

  /** `PumpLogicState`. */
  datatype PumpLogicState = PumpLogicState(
    pumpRunning: bool,
    pumpStartMs: uint32,
    pumpRunSeconds: uint32,
    lastRequestId: string,
    pumpStartIso: string,
    lastWaterLevelPercent: int32,
    lastWaterLevelSeenMs: uint32)

  /** The state the constructor sets up: pump off, no run length, level
      unknown (-1). */
  const INITIAL_STATE: PumpLogicState := PumpLogicState(false, 0, 0, "", "", -1, 0)

  class PumpLogic {
    var state: PumpLogicState
    const waterLevelStaleMs: uint32

    constructor (waterLevelStaleMs: uint32)
      ensures state == INITIAL_STATE && this.waterLevelStaleMs == waterLevelStaleMs
      ensures !state.pumpRunning && state.pumpRunSeconds == 0 && !IsWaterLevelKnown()
    {
      state := INITIAL_STATE;
      this.waterLevelStaleMs := waterLevelStaleMs;
    }

    /** `UpdateWaterLevel`: records the reading and when it was seen; a
        negative percentage makes the level unknown again. */
    method UpdateWaterLevel(levelPercent: int32, nowMs: uint32)
      modifies this
      ensures state == old(state).(lastWaterLevelPercent := levelPercent, lastWaterLevelSeenMs := nowMs)
      ensures IsWaterLevelKnown() <==> levelPercent >= 0
    {
      state := state.(lastWaterLevelPercent := levelPercent, lastWaterLevelSeenMs := nowMs);
    }

    predicate IsWaterLevelKnown()
      reads this
    {
      state.lastWaterLevelPercent >= 0
    }

    /** An unknown level is always stale; a known one once more than
        `waterLevelStaleMs` have passed, counted modulo 2^32. */
    predicate IsWaterLevelStale(nowMs: uint32)
      reads this
    {
      !IsWaterLevelKnown() || Base.Sub32(nowMs, state.lastWaterLevelSeenMs) > waterLevelStaleMs
    }

    predicate IsWaterLevelSafe(nowMs: uint32)
      reads this
    {
      IsWaterLevelKnown() && !IsWaterLevelStale(nowMs) && state.lastWaterLevelPercent > 0
    }

    /** `EvaluateCommand`: `stop` always stops; anything else starts only on
        a safe level and a positive duration. The request id is echoed in
        every case. */
    function EvaluateCommand(action: string, runSeconds: int32, requestId: string, nowMs: uint32): (d: PumpDecision)
      reads this
      ensures d.requestId == requestId
      ensures action == "stop" <==> d.action == Stop
      ensures d.action == Start <==> action != "stop" && IsWaterLevelSafe(nowMs) && runSeconds > 0
      ensures d.action == Start ==> d.runSeconds == runSeconds
      ensures d.action != Start ==> d.runSeconds == 0
    {
      if action == "stop" then PumpDecision(Stop, 0, requestId)
      else if !IsWaterLevelSafe(nowMs) then PumpDecision(None, 0, requestId)
      else if runSeconds <= 0 then PumpDecision(None, 0, requestId)
      else PumpDecision(Start, runSeconds as uint32, requestId)
    }

    /** `OnMqttDisconnected`: a running pump is stopped. */
    function OnMqttDisconnected(): (d: PumpDecision)
      reads this
      ensures d.action == Stop <==> state.pumpRunning
      ensures d.action != Start && d.runSeconds == 0 && d.requestId == state.lastRequestId
    {
      if state.pumpRunning then PumpDecision(Stop, 0, state.lastRequestId)
      else PumpDecision(None, 0, state.lastRequestId)
    }

    /** Whole seconds since the pump started, from the wrapping counter. */
    function ElapsedSeconds(nowMs: uint32): (s: uint32)
      reads this
      ensures s * 1000 <= Base.Sub32(nowMs, state.pumpStartMs) < (s + 1) * 1000
    {
      Base.Sub32(nowMs, state.pumpStartMs) / 1000
    }

    /** `OnTick`: a running pump with a run length is stopped once that many
        whole seconds have passed; a run length of 0 never times out. */
    function OnTick(nowMs: uint32): (d: PumpDecision)
      reads this
      ensures d.action == Stop <==> state.pumpRunning && state.pumpRunSeconds != 0
                                    && Base.Sub32(nowMs, state.pumpStartMs) >= state.pumpRunSeconds * 1000
      ensures d.action != Start && d.runSeconds == 0 && d.requestId == state.lastRequestId
    {
      if !state.pumpRunning then PumpDecision(None, 0, state.lastRequestId)
      else if state.pumpRunSeconds == 0 then PumpDecision(None, 0, state.lastRequestId)
      else if ElapsedSeconds(nowMs) >= state.pumpRunSeconds then PumpDecision(Stop, 0, state.lastRequestId)
      else PumpDecision(None, 0, state.lastRequestId)
    }

    /** `ApplyDecision`: a start records the run; a stop only clears the
        running flag; no decision touches the water-level fields. */
    method ApplyDecision(decision: PumpDecision, nowMs: uint32, startIso: string)
      modifies this
      ensures decision.action == Start ==>
                state == old(state).(pumpRunning := true, pumpStartMs := nowMs, pumpRunSeconds := decision.runSeconds,
                                     lastRequestId := decision.requestId, pumpStartIso := startIso)
      ensures decision.action == Stop ==> state == old(state).(pumpRunning := false)
      ensures decision.action == None ==> state == old(state)
      ensures state.lastWaterLevelPercent == old(state.lastWaterLevelPercent)
      ensures state.lastWaterLevelSeenMs == old(state.lastWaterLevelSeenMs)
    {
      if decision.action == Start {
        state := state.(pumpRunning := true, pumpStartMs := nowMs, pumpRunSeconds := decision.runSeconds,
                        lastRequestId := decision.requestId, pumpStartIso := startIso);
        return;
      }
      if decision.action == Stop {
        state := state.(pumpRunning := false);
      }
    }
  }

  /** A safe level is known, fresh and above zero; an unknown level is
      never safe, so nothing starts before the first reading. */
  lemma SafeMeansKnownFreshPositive(p: PumpLogic, nowMs: uint32, action: string, runSeconds: int32, requestId: string)
    ensures p.IsWaterLevelSafe(nowMs) <==>
              p.state.lastWaterLevelPercent > 0
              && Base.Sub32(nowMs, p.state.lastWaterLevelSeenMs) <= p.waterLevelStaleMs
    ensures !p.IsWaterLevelKnown() ==> p.IsWaterLevelStale(nowMs) && p.EvaluateCommand(action, runSeconds, requestId, nowMs).action != Start
  {
  }

  /** The counter may wrap between the reading and now: a reading seen
      shortly before the wrap is still fresh shortly after it. */
  lemma FreshAcrossWrap(p: PumpLogic, before: nat, after: nat)
    requires p.IsWaterLevelKnown() && 0 < before && before + after <= p.waterLevelStaleMs
    requires p.state.lastWaterLevelSeenMs == Base.TWO_32 - before && after < Base.TWO_32 - before
    ensures !p.IsWaterLevelStale(after)
  {
    assert Base.Sub32(after, p.state.lastWaterLevelSeenMs) == before + after;
  }

  /** A run just started is not timed out at the instant it starts, and it
      is timed out once its whole duration has passed (within one wrap of
      the counter). */
  lemma TimeoutAfterDuration(p: PumpLogic, elapsedMs: nat)
    requires p.state.pumpRunning && p.state.pumpRunSeconds > 0
    ensures p.OnTick(p.state.pumpStartMs).action == None
    ensures elapsedMs < Base.TWO_32 ==>
              var nowMs := (p.state.pumpStartMs + elapsedMs) % Base.TWO_32;
              (p.OnTick(nowMs).action == Stop <==> elapsedMs >= p.state.pumpRunSeconds * 1000)
  {
    if elapsedMs < Base.TWO_32 {
      var nowMs := (p.state.pumpStartMs + elapsedMs) % Base.TWO_32;
      assert Base.Sub32(nowMs, p.state.pumpStartMs) == elapsedMs;
    }
  }
}
