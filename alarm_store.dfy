/** `AlarmStore`: a bounded in-memory list of alarms, newest first, that
    also hands every alarm to the alarm repository for persistence. */
module Alarms {
  import opened Base
  import opened Contracts

  /** The default of the `maxCount` constructor parameter. */
  const DEFAULT_MAX_COUNT: int := 50

  /** `AlarmRecord`, the row written to the `alarms` table (its `Id` is
      assigned by the database and is not modelled). */
  datatype AlarmRecord = AlarmRecord(
    alarmType: string,
    severity: string,
    message: string,
    raisedAtUtc: DateTimeOffset,
    receivedAtUtc: DateTimeOffset)

  /** The record the store builds from an alarm. */
  function ToRecord(a: SystemAlarmUpdate): (r: AlarmRecord)
    ensures r.alarmType == a.alarmType && r.severity == a.severity && r.message == a.message
    ensures r.raisedAtUtc == a.raisedAt && r.receivedAtUtc == a.receivedAt
  {
    AlarmRecord(a.alarmType, a.severity, a.message, a.raisedAt, a.receivedAt)
  }

  /** `AlarmRepository`, reduced to the inserts handed to it. The store
      discards the `Task` returned by `AddAsync`, so whether an insert
      succeeded never reaches the in-memory list. */
  class AlarmRepository {
    var inserts: seq<AlarmRecord>

    constructor ()
      ensures inserts == []
    {
      inserts := [];
    }

    method AddAsync(r: AlarmRecord)
      modifies this
      ensures inserts == old(inserts) + [r]
    {
      inserts := inserts + [r];
    }
  }

  /** How many alarms a store with the given `maxCount` keeps at most. */
  function Capacity(maxCount: int): nat
  {
    if maxCount < 0 then 0 else maxCount
  }

  function Min(a: int, b: int): int { if a <= b then a else b }

  /** The list after `Add(a)`: `Insert(0, a)`, then `RemoveAt(Count - 1)`
      when the list has grown past `maxCount`. */
  function Added(list: seq<SystemAlarmUpdate>, a: SystemAlarmUpdate, maxCount: int)
    : (r: seq<SystemAlarmUpdate>)
    ensures |r| == if |list| + 1 > maxCount then |list| else |list| + 1
    ensures r != [] ==> r[0] == a
    ensures r == ([a] + list)[..|r|]
    ensures |list| <= Capacity(maxCount) ==> |r| == Min(|list| + 1, Capacity(maxCount))
  {
    var inserted := [a] + list;
    if |inserted| > maxCount then inserted[..|inserted| - 1] else inserted
  }

  /** The list after adding `alarms`, in order, to an empty store. */
  function AddedAll(alarms: seq<SystemAlarmUpdate>, maxCount: int): seq<SystemAlarmUpdate>
    decreases |alarms|
  {
    if alarms == [] then []
    else Added(AddedAll(alarms[..|alarms| - 1], maxCount), alarms[|alarms| - 1], maxCount)
  }

  function Reversed<T>(s: seq<T>): (r: seq<T>)
    ensures |r| == |s|
    ensures forall i :: 0 <= i < |s| ==> r[i] == s[|s| - 1 - i]
    decreases |s|
  {
    if s == [] then [] else [s[|s| - 1]] + Reversed(s[..|s| - 1])
  }

  /** Taking a prefix of a sequence with an element in front. */
  lemma ConsTake<T>(a: T, s: seq<T>, k: nat)
    requires 0 < k <= |s| + 1
    ensures ([a] + s)[..k] == [a] + s[..k - 1]
  {
    var l, r := ([a] + s)[..k], [a] + s[..k - 1];
    assert |l| == |r|;
    forall i | 0 <= i < k ensures l[i] == r[i] {
      if i > 0 {
        assert l[i] == s[i - 1];
      }
    }
  }

  lemma TakeTake<T>(s: seq<T>, j: nat, k: nat)
    requires j <= k <= |s|
    ensures s[..k][..j] == s[..j]
  {
  }

  /** Adding `a` to the first alarms of `r` that fit keeps the first
      alarms of `[a] + r` that fit. */
  lemma AddedTake(r: seq<SystemAlarmUpdate>, a: SystemAlarmUpdate, maxCount: int)
    ensures Added(r[..Min(|r|, Capacity(maxCount))], a, maxCount) == ([a] + r)[..Min(|r| + 1, Capacity(maxCount))]
  {
    var c := Capacity(maxCount);
    if |r| < c {
      assert r[..|r|] == r;
      assert ([a] + r)[..|r| + 1] == [a] + r;
    } else if c > 0 {
      assert Min(|r|, c) == c == maxCount;
      TakeTake(r, c - 1, c);
      ConsTake(a, r[..c], c);
      ConsTake(a, r, c);
    }
  }

  /** Inserting `a` in front of the newest alarms of `init` keeps the
      newest alarms of `init + [a]`. */
  lemma AddedKeepsNewest(init: seq<SystemAlarmUpdate>, a: SystemAlarmUpdate, maxCount: int)
    ensures Added(Reversed(init)[..Min(|init|, Capacity(maxCount))], a, maxCount)
            == Reversed(init + [a])[..Min(|init| + 1, Capacity(maxCount))]
  {
    var whole := init + [a];
    assert whole[..|whole| - 1] == init;
    assert Reversed(whole) == [a] + Reversed(init);
    AddedTake(Reversed(init), a, maxCount);
  }

  /** After k insertions into an empty store of capacity N, the store holds
      the last min(k, N) alarms inserted, newest first. */
  lemma {:induction false} AddedAllKeepsNewest(alarms: seq<SystemAlarmUpdate>, maxCount: int)
    ensures AddedAll(alarms, maxCount) == Reversed(alarms)[..Min(|alarms|, Capacity(maxCount))]
    decreases |alarms|
  {
    if alarms != [] {
      var init := alarms[..|alarms| - 1];
      AddedAllKeepsNewest(init, maxCount);
      AddedKeepsNewest(init, alarms[|alarms| - 1], maxCount);
      assert init + [alarms[|alarms| - 1]] == alarms;
    }
  }

  class AlarmStore {
    /** `_alarms`, newest first. */
    var alarms: seq<SystemAlarmUpdate>
    const maxCount: int
    const repository: AlarmRepository

    /** The bound the store keeps. */
    ghost predicate Valid()
      reads this
    {
      |alarms| <= Capacity(maxCount)
    }

    constructor (repository: AlarmRepository, maxCount: int)
      ensures alarms == [] && this.maxCount == maxCount && this.repository == repository
      ensures Valid()
    {
      this.repository := repository;
      this.maxCount := maxCount;
      alarms := [];
    }

    /** `GetRecent`: a copy of the list, newest first; nothing changes. */
    method GetRecent() returns (r: seq<SystemAlarmUpdate>)
      ensures r == alarms
    {
      r := alarms;
    }

    /** `Add(alarm)`: the list is updated first, then the record is handed
        to the repository; the outcome of that call is not awaited. */
    method Add(alarm: SystemAlarmUpdate)
      modifies this, repository
      ensures alarms == Added(old(alarms), alarm, maxCount)
      ensures repository.inserts == old(repository.inserts) + [ToRecord(alarm)]
      ensures old(Valid()) ==> Valid()
    {
      alarms := [alarm] + alarms;
      if |alarms| > maxCount {
        alarms := alarms[..|alarms| - 1];
      }
      repository.AddAsync(ToRecord(alarm));
    }
  }
}
