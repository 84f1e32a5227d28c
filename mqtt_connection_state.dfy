/** `MqttConnectionState`: the connection flag and the times of the last
    connect and disconnect, kept for health checks. The lock in the source
    makes each operation atomic; the model has no concurrency. */
module Connection {
  import opened Base

  /** `MqttConnectionSnapshot`. */
  datatype MqttConnectionSnapshot = MqttConnectionSnapshot(
    isConnected: bool,
    lastConnectedAt: Option<DateTimeOffset>,
    lastDisconnectedAt: Option<DateTimeOffset>)

  class MqttConnectionState {
    var isConnected: bool
    var lastConnectedAt: Option<DateTimeOffset>
    var lastDisconnectedAt: Option<DateTimeOffset>
    /** Every mark so far, oldest first: `true` for a connect, `false` for a
        disconnect, each with its time. */
    ghost var marks: seq<(bool, DateTimeOffset)>

    /** The fields are the snapshot `AfterMarks` gives for the marks so far. */
    ghost predicate Valid()
      reads this
    {
      Current() == AfterMarks(marks)
    }

    /** A new tracker reports disconnected, never connected, never dropped. */
    constructor ()
      ensures isConnected == false && lastConnectedAt == None && lastDisconnectedAt == None
      ensures marks == [] && Valid()
    {
      isConnected := false;
      lastConnectedAt := None;
      lastDisconnectedAt := None;
      marks := [];
    }

    /** The three fields as one value. */
    function Current(): MqttConnectionSnapshot
      reads this
    {
      MqttConnectionSnapshot(isConnected, lastConnectedAt, lastDisconnectedAt)
    }

    /** `GetSnapshot`: reads the fields and changes nothing. */
    method GetSnapshot() returns (s: MqttConnectionSnapshot)
      ensures s.isConnected == isConnected
      ensures s.lastConnectedAt == lastConnectedAt && s.lastDisconnectedAt == lastDisconnectedAt
    {
      s := MqttConnectionSnapshot(isConnected, lastConnectedAt, lastDisconnectedAt);
    }

    /** `MarkConnected(at)`: connected since `at`; the last disconnect time is
        kept. */
    method MarkConnected(at: DateTimeOffset)
      modifies this
      ensures Current() == MqttConnectionSnapshot(true, Some(at), old(lastDisconnectedAt))
      ensures marks == old(marks) + [(true, at)]
      ensures old(Valid()) ==> Valid()
    {
      isConnected := true;
      lastConnectedAt := Some(at);
      marks := marks + [(true, at)];
      assert marks[..|marks| - 1] == old(marks);
    }

    /** `MarkDisconnected(at)`: disconnected since `at`; the last connect time
        is kept. */
    method MarkDisconnected(at: DateTimeOffset)
      modifies this
      ensures Current() == MqttConnectionSnapshot(false, old(lastConnectedAt), Some(at))
      ensures marks == old(marks) + [(false, at)]
      ensures old(Valid()) ==> Valid()
    {
      isConnected := false;
      lastDisconnectedAt := Some(at);
      marks := marks + [(false, at)];
      assert marks[..|marks| - 1] == old(marks);
    }
  }

  /** The snapshot after a sequence of marks, from a fresh tracker: `true`
      marks a connect, `false` a disconnect, each with its time. */
  function AfterMarks(marks: seq<(bool, DateTimeOffset)>): (s: MqttConnectionSnapshot)
    ensures marks == [] ==> s == MqttConnectionSnapshot(false, None, None)
    ensures marks != [] ==> s.isConnected == marks[|marks| - 1].0
    decreases |marks|
  {
    if marks == [] then MqttConnectionSnapshot(false, None, None)
    else
      var before := AfterMarks(marks[..|marks| - 1]);
      var (up, at) := marks[|marks| - 1];
      if up then before.(isConnected := true, lastConnectedAt := Some(at))
      else before.(isConnected := false, lastDisconnectedAt := Some(at))
  }

  /** The recorded connect time is the time of the latest connect mark, and
      none when there was none; likewise for disconnects. */
  lemma {:induction false} AfterMarksRecordsLatest(marks: seq<(bool, DateTimeOffset)>)
    ensures AfterMarks(marks).lastConnectedAt.Some? <==> exists i :: 0 <= i < |marks| && marks[i].0
    ensures AfterMarks(marks).lastDisconnectedAt.Some? <==> exists i :: 0 <= i < |marks| && !marks[i].0
    ensures forall i :: 0 <= i < |marks| && marks[i].0 && AfterMarks(marks).lastConnectedAt.Some?
              && (forall j :: i < j < |marks| ==> !marks[j].0)
              ==> AfterMarks(marks).lastConnectedAt.value == marks[i].1
    ensures forall i :: 0 <= i < |marks| && !marks[i].0 && AfterMarks(marks).lastDisconnectedAt.Some?
              && (forall j :: i < j < |marks| ==> marks[j].0)
              ==> AfterMarks(marks).lastDisconnectedAt.value == marks[i].1
    decreases |marks|
  {
    if marks != [] {
      var init := marks[..|marks| - 1];
      AfterMarksRecordsLatest(init);
      assert forall i :: 0 <= i < |init| ==> init[i] == marks[i];
    }
  }
}
