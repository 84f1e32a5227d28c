/** `WaterLevelController` of the legacy Raspberry Pi application: four
    float sensors, each assigned a level, and the tank level taken from the
    highest sensor that detects water. The sensors' GPIO wiring is not
    modelled; their `WaterIsDetected` values are the input of a
    notification. */
module LegacyWaterLevel {
  import opened Base

  /** `WaterLevel`, declared in `WaterLevel.cs` with the values
      `Empty = 0`, `Low = 1`, `Medium = 2`, `Full = 3`; `Rank` is that value,
      and the sensors are sorted by it. */
  datatype WaterLevel = Empty | Low | Medium | Full

  function Rank(l: WaterLevel): (r: nat)
    ensures r <= 3
  {
    match l
    case Empty => 0
    case Low => 1
    case Medium => 2
    case Full => 3
  }

  lemma RankInjective(a: WaterLevel, b: WaterLevel)
    ensures Rank(a) == Rank(b) <==> a == b
  {
  }

  function Higher(a: WaterLevel, b: WaterLevel): WaterLevel
  {
    if Rank(a) >= Rank(b) then a else b
  }

  /** The level of the first sensor detecting water when the sensors are
      ordered by descending level (`OrderByDescending(...).FirstOrDefault(...)`):
      the highest level among the detecting sensors, or none. Sensors that
      share a level give that same level whichever comes first. */
  function HighestDetecting(levels: seq<WaterLevel>, detected: seq<bool>): Option<WaterLevel>
    requires |levels| == |detected|
    decreases |levels|
  {
    if levels == [] then None
    else
      var n := |levels| - 1;
      var init := HighestDetecting(levels[..n], detected[..n]);
      if !detected[n] then init
      else if init.None? then Some(levels[n])
      else Some(Higher(init.value, levels[n]))
  }

  /** The selection finds a detecting sensor, none of the detecting sensors
      is higher, and it finds nothing exactly when no sensor detects water. */
  lemma {:induction false} HighestDetectingIsMaximum(levels: seq<WaterLevel>, detected: seq<bool>)
    requires |levels| == |detected|
    ensures var h := HighestDetecting(levels, detected);
      && (h.None? <==> forall i :: 0 <= i < |levels| ==> !detected[i])
      && (h.Some? ==> exists i :: 0 <= i < |levels| && detected[i] && levels[i] == h.value)
      && (h.Some? ==> forall i :: 0 <= i < |levels| && detected[i] ==> Rank(levels[i]) <= Rank(h.value))
    decreases |levels|
  {
    if levels != [] {
      var n := |levels| - 1;
      HighestDetectingIsMaximum(levels[..n], detected[..n]);
      var init := HighestDetecting(levels[..n], detected[..n]);
      assert forall i :: 0 <= i < n ==> levels[..n][i] == levels[i] && detected[..n][i] == detected[i];
      if init.Some? {
        var j :| 0 <= j < n && detected[..n][j] && levels[..n][j] == init.value;
        assert detected[j] && levels[j] == init.value;
      }
    }
  }

  /** The tank level for the given detections: `Empty` when no sensor
      detects water. */
  function LevelOf(levels: seq<WaterLevel>, detected: seq<bool>): WaterLevel
    requires |levels| == |detected|
  {
    var h := HighestDetecting(levels, detected);
    if h.None? then Empty else h.value
  }

  /** The levels of the sensors that detect water. */
  function DetectingLevels(levels: seq<WaterLevel>, detected: seq<bool>): set<WaterLevel>
    requires |levels| == |detected|
  {
    set i | 0 <= i < |levels| && detected[i] :: levels[i]
  }

  /** The level depends only on which levels are detecting water, not on
      which sensor fired or in which order the sensors are listed. */
  lemma LevelDependsOnlyOnDetectingSet(levels1: seq<WaterLevel>, detected1: seq<bool>,
                                       levels2: seq<WaterLevel>, detected2: seq<bool>)
    requires |levels1| == |detected1| && |levels2| == |detected2|
    requires DetectingLevels(levels1, detected1) == DetectingLevels(levels2, detected2)
    ensures LevelOf(levels1, detected1) == LevelOf(levels2, detected2)
  {
    HighestDetectingIsMaximum(levels1, detected1);
    HighestDetectingIsMaximum(levels2, detected2);
    var h1, h2 := HighestDetecting(levels1, detected1), HighestDetecting(levels2, detected2);
    var s := DetectingLevels(levels1, detected1);
    assert h1.None? <==> s == {} by {
      if h1.Some? {
        var i :| 0 <= i < |levels1| && detected1[i] && levels1[i] == h1.value;
        assert levels1[i] in s;
      }
      if s != {} {
        var l :| l in s;
      }
    }
    assert h2.None? <==> s == {} by {
      if h2.Some? {
        var i :| 0 <= i < |levels2| && detected2[i] && levels2[i] == h2.value;
        assert levels2[i] in DetectingLevels(levels2, detected2);
      }
      if s != {} {
        var l :| l in DetectingLevels(levels2, detected2);
      }
    }
    if h1.Some? && h2.Some? {
      var i :| 0 <= i < |levels1| && detected1[i] && levels1[i] == h1.value;
      var j :| 0 <= j < |levels2| && detected2[j] && levels2[j] == h2.value;
      assert h1.value in DetectingLevels(levels2, detected2);
      assert h2.value in s;
      RankInjective(h1.value, h2.value);
    }
  }

  /** The level each sensor is assigned by the constructor, in the order
      empty, low, medium, full. */
  const SENSOR_LEVELS: seq<WaterLevel> := [Empty, Low, Medium, Full]

  class WaterLevelController {
    const sensorLevels: seq<WaterLevel>
    var waterLevel: WaterLevel
    /** The `Level` of every `WaterLevelChanged` raised, oldest first. */
    var raised: seq<WaterLevel>

    /** The sensors are assigned their levels. `WaterLevel` is not set
        before the first notification, so it holds the enum's default,
        `Empty` (value 0). */
    constructor ()
      ensures sensorLevels == SENSOR_LEVELS && raised == []
      ensures waterLevel == Empty
    {
      sensorLevels := SENSOR_LEVELS;
      waterLevel := Empty;
      raised := [];
    }

    /** `OnSensorStateIsChanged`: whichever sensor fired, the level is taken
        afresh from all four sensors and announced once. */
    method OnSensorStateIsChanged(detected: seq<bool>)
      requires |detected| == |sensorLevels|
      modifies this
      ensures waterLevel == LevelOf(sensorLevels, detected)
      ensures raised == old(raised) + [waterLevel]
    {
      var h := HighestDetecting(sensorLevels, detected);
      waterLevel := if h.None? then Empty else h.value;
      raised := raised + [waterLevel];
    }
  }

  /** With the constructor's assignment, the level is the highest
      detecting sensor's: the full sensor wins over all others, and no
      detection means empty. */
  lemma AssignedLevels(detected: seq<bool>)
    requires |detected| == 4
    ensures detected[3] ==> LevelOf(SENSOR_LEVELS, detected) == Full
    ensures !detected[3] && detected[2] ==> LevelOf(SENSOR_LEVELS, detected) == Medium
    ensures !detected[3] && !detected[2] && detected[1] ==> LevelOf(SENSOR_LEVELS, detected) == Low
    ensures !detected[3] && !detected[2] && !detected[1] ==> LevelOf(SENSOR_LEVELS, detected) == Empty
  {
    HighestDetectingIsMaximum(SENSOR_LEVELS, detected);
    var h := HighestDetecting(SENSOR_LEVELS, detected);
    if h.Some? {
      var i :| 0 <= i < 4 && detected[i] && SENSOR_LEVELS[i] == h.value;
    }
  }
}
