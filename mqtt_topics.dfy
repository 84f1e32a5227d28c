/** `MqttTopics`: the five topic names derived from the configured prefix. */
module Topics {
  import opened Base

  const DEFAULT_PREFIX: string := "WateringController"

  datatype MqttTopics = MqttTopics(
    prefix: string,
    pumpCommand: string,
    pumpState: string,
    waterLevelState: string,
    systemAlarm: string,
    systemState: string)

  /** The prefix actually used: `(TopicPrefix ?? default).Trim('/')`, and the
      default again when that leaves only white space. */
  function EffectivePrefix(topicPrefix: Option<string>): (p: string)
    ensures p != [] && p[0] != '/' && p[|p| - 1] != '/'
  {
    var trimmed := TrimChar(if topicPrefix.Some? then topicPrefix.value else DEFAULT_PREFIX, '/');
    BlankIffTrimEmpty(trimmed);
    if IsBlank(trimmed) then DEFAULT_PREFIX else trimmed
  }

  const PUMP_COMMAND_SUFFIX: string := "pump/cmd"
  const PUMP_STATE_SUFFIX: string := "pump/state"
  const WATER_LEVEL_STATE_SUFFIX: string := "waterlevel/state"
  const SYSTEM_ALARM_SUFFIX: string := "system/alarm"
  const SYSTEM_STATE_SUFFIX: string := "system/state"

  /** The topic `<prefix>/WateringController/<suffix>`. */
  function TopicFor(prefix: string, suffix: string): (topic: string)
    ensures |topic| == |prefix| + 20 + |suffix|
    ensures topic[..|prefix|] == prefix && topic[|prefix| + 20..] == suffix
    ensures topic[|prefix|..|prefix| + 20] == "/WateringController/"
  {
    prefix + "/WateringController/" + suffix
  }

  /** The `MqttTopics` constructor: every topic is the effective prefix,
      the application segment and the topic's own suffix. */
  function FromPrefix(topicPrefix: Option<string>): (t: MqttTopics)
    ensures t.prefix == EffectivePrefix(topicPrefix)
    ensures t.pumpCommand == TopicFor(t.prefix, PUMP_COMMAND_SUFFIX)
    ensures t.pumpState == TopicFor(t.prefix, PUMP_STATE_SUFFIX)
    ensures t.waterLevelState == TopicFor(t.prefix, WATER_LEVEL_STATE_SUFFIX)
    ensures t.systemAlarm == TopicFor(t.prefix, SYSTEM_ALARM_SUFFIX)
    ensures t.systemState == TopicFor(t.prefix, SYSTEM_STATE_SUFFIX)
  {
    var p := EffectivePrefix(topicPrefix);
    MqttTopics(p, TopicFor(p, PUMP_COMMAND_SUFFIX), TopicFor(p, PUMP_STATE_SUFFIX),
               TopicFor(p, WATER_LEVEL_STATE_SUFFIX), TopicFor(p, SYSTEM_ALARM_SUFFIX),
               TopicFor(p, SYSTEM_STATE_SUFFIX))
  }

  /** A missing prefix, and one that is empty or white space once its slashes
      are trimmed, both give the default prefix. */
  lemma DefaultPrefix(topicPrefix: Option<string>)
    requires topicPrefix.None? || IsBlank(TrimChar(topicPrefix.value, '/'))
    ensures FromPrefix(topicPrefix).prefix == DEFAULT_PREFIX
  {
    if topicPrefix.None? {
      assert DEFAULT_PREFIX[0] == 'W' && DEFAULT_PREFIX[|DEFAULT_PREFIX| - 1] == 'r';
      TrimByKeepsUnstripped(DEFAULT_PREFIX, x => x == '/');
      assert !IsWhiteSpace(DEFAULT_PREFIX[0]);
    }
  }

  /** A configured prefix that is not blank and has no slash at either end
      is used as it is, and wrapping it in slashes changes nothing. */
  lemma {:induction false} PrefixKeptAndSlashesTrimmed(p: string)
    requires p != [] && p[0] != '/' && p[|p| - 1] != '/' && !IsBlank(p)
    ensures FromPrefix(Some(p)).prefix == p
    ensures FromPrefix(Some("/" + p + "/")) == FromPrefix(Some(p))
  {
    var slash := (x: char) => x == '/';
    TrimByKeepsUnstripped(p, slash);
    var wrapped := "/" + p + "/";
    var tail := p + "/";
    assert wrapped[1..] == tail;
    assert tail[..|tail| - 1] == p;
    assert TrimBy(tail, slash) == TrimBy(p, slash);
    assert TrimBy(wrapped, slash) == TrimBy(tail, slash);
    assert TrimChar(wrapped, '/') == p;
  }

  /** Topics under the same prefix whose suffixes differ at position `k`
      are different topics. */
  lemma DistinctSuffixesDistinctTopics(p: string, a: string, b: string, k: nat)
    requires k < |a| && k < |b| && a[k] != b[k]
    ensures TopicFor(p, a) != TopicFor(p, b)
  {
    assert TopicFor(p, a)[|p| + 20..][k] == a[k];
    assert TopicFor(p, b)[|p| + 20..][k] == b[k];
  }

  /** The five topics are pairwise distinct, whatever the prefix. */
  lemma TopicsDistinct(topicPrefix: Option<string>)
    ensures var t := FromPrefix(topicPrefix);
      t.pumpCommand != t.pumpState && t.pumpCommand != t.waterLevelState
      && t.pumpCommand != t.systemAlarm && t.pumpCommand != t.systemState
      && t.pumpState != t.waterLevelState && t.pumpState != t.systemAlarm
      && t.pumpState != t.systemState && t.waterLevelState != t.systemAlarm
      && t.waterLevelState != t.systemState && t.systemAlarm != t.systemState
  {
    var p := EffectivePrefix(topicPrefix);
    var pc, ps, wl, sa, ss := PUMP_COMMAND_SUFFIX, PUMP_STATE_SUFFIX, WATER_LEVEL_STATE_SUFFIX,
                              SYSTEM_ALARM_SUFFIX, SYSTEM_STATE_SUFFIX;
    DistinctSuffixesDistinctTopics(p, pc, ps, 5);
    DistinctSuffixesDistinctTopics(p, pc, wl, 0);
    DistinctSuffixesDistinctTopics(p, pc, sa, 0);
    DistinctSuffixesDistinctTopics(p, pc, ss, 0);
    DistinctSuffixesDistinctTopics(p, ps, wl, 0);
    DistinctSuffixesDistinctTopics(p, ps, sa, 0);
    DistinctSuffixesDistinctTopics(p, ps, ss, 0);
    DistinctSuffixesDistinctTopics(p, wl, sa, 0);
    DistinctSuffixesDistinctTopics(p, wl, ss, 0);
    DistinctSuffixesDistinctTopics(p, sa, ss, 7);
  }
}
