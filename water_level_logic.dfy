/** `WaterLevelLogic` of the level firmware: turns the four float sensors
    into a percentage, notices when they change and decides when to
    publish. Times are the wrapping `uint32_t` `millis()` counter. */
module LevelFirmware {
  import Base

  type uint32 = Base.uint32

  /** `std::array<bool, 4>`, bottom sensor first. */
  type Sensors = s: seq<bool> | |s| == 4 witness [false, false, false, false]

  /** `WaterLevelSnapshot`. */
  datatype WaterLevelSnapshot = WaterLevelSnapshot(sensors: Sensors, levelPercent: int)

  /** How many of `s` are `true`. */
  function CountTrue(s: seq<bool>): (n: nat)
    ensures n <= |s|
    decreases |s|
  {
    if s == [] then 0 else CountTrue(s[..|s| - 1]) + (if s[|s| - 1] then 1 else 0)
  }

  class WaterLevelLogic {
    var lastSensors: Sensors
    var lastPublishMs: uint32
    const publishIntervalMs: uint32

    /** At start every sensor is taken as dry and the last publish as time 0. */
    constructor (publishIntervalMs: uint32)
      ensures lastSensors == [false, false, false, false] && lastPublishMs == 0
      ensures this.publishIntervalMs == publishIntervalMs
      ensures !HasChanged([false, false, false, false])
    {
      lastSensors := [false, false, false, false];
      lastPublishMs := 0;
      this.publishIntervalMs := publishIntervalMs;
    }

    /** `BuildSnapshot`: counts the wet sensors; each one is a quarter of the
        tank, so the percentage is always 0, 25, 50, 75 or 100. */
    method BuildSnapshot(sensors: Sensors) returns (snapshot: WaterLevelSnapshot)
      ensures snapshot.sensors == sensors
      ensures snapshot.levelPercent == CountTrue(sensors) * 100 / 4
      ensures snapshot.levelPercent in {0, 25, 50, 75, 100}
    {
      var count := 0;
      for i := 0 to 4
        invariant count == CountTrue(sensors[..i])
      {
        assert sensors[..i + 1][..i] == sensors[..i];
        if sensors[i] {
          count := count + 1;
        }
      }
      assert sensors[..4] == sensors;
      snapshot := WaterLevelSnapshot(sensors, (count * 100) / 4);
    }

    /** `HasChanged`: the readings differ from the last published ones in
        some position. */
    predicate HasChanged(sensors: Sensors)
      reads this
    {
      sensors != lastSensors
    }

    /** `ShouldPublish`: always on a change, otherwise once the interval has
        passed since the last publish, counted modulo 2^32. */
    predicate ShouldPublish(changed: bool, nowMs: uint32)
      reads this
    {
      changed || Base.Sub32(nowMs, lastPublishMs) >= publishIntervalMs
    }

    /** `MarkPublished`: remembers what was sent and when, so the same
        readings no longer count as a change. */
    method MarkPublished(sensors: Sensors, nowMs: uint32)
      modifies this
      ensures lastSensors == sensors && lastPublishMs == nowMs
      ensures !HasChanged(sensors)
      ensures ShouldPublish(false, nowMs) <==> publishIntervalMs == 0
    {
      lastSensors := sensors;
      lastPublishMs := nowMs;
    }
  }

  /** `HasChanged` is a position-by-position comparison. */
  lemma ChangedIffSomePositionDiffers(logic: WaterLevelLogic, sensors: Sensors)
    ensures logic.HasChanged(sensors) <==> exists i :: 0 <= i < 4 && sensors[i] != logic.lastSensors[i]
  {
    if !logic.HasChanged(sensors) {
    } else {
      assert !(forall i :: 0 <= i < 4 ==> sensors[i] == logic.lastSensors[i]);
    }
  }

  /** Without a change, the publish decision turns from false to true
      exactly when the elapsed time reaches the interval, also when the
      counter wrapped in between. */
  lemma PeriodicPublish(logic: WaterLevelLogic, elapsedMs: nat)
    requires elapsedMs < Base.TWO_32
    ensures logic.ShouldPublish(false, (logic.lastPublishMs + elapsedMs) % Base.TWO_32)
            <==> elapsedMs >= logic.publishIntervalMs
  {
    assert Base.Sub32((logic.lastPublishMs + elapsedMs) % Base.TWO_32, logic.lastPublishMs) == elapsedMs;
  }
}
