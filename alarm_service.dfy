/** `AlarmService.RaiseAsync`: publishes an alarm, retained, on the alarm
    topic and then records it in the alarm store. */
module AlarmRaising {
  import opened Base
  import opened Contracts
  import opened Topics
  import opened Alarms

  /** The severity every backend service raises its alarms with. */
  const SEVERITY_WARNING: string := "warning"

  /** The type and message of an alarm a service raises. */
  datatype AlarmText = AlarmText(alarmType: string, message: string)

  /** The retained message `RaiseAsync` hands to the publisher. */
  function AlarmMessage(topics: MqttTopics, alarm: SystemAlarmPayload): (m: Message)
    ensures m.topic == topics.systemAlarm && m.retain
    ensures m.payload == AlarmPayload(alarm)
  {
    Message(topics.systemAlarm, AlarmPayload(alarm), true)
  }

  /** The alarm the store receives: the published payload's fields and the
      receipt time. */
  function StoredAlarm(alarm: SystemAlarmPayload, receivedAt: DateTimeOffset): (u: SystemAlarmUpdate)
    ensures u.alarmType == alarm.alarmType && u.severity == alarm.severity
    ensures u.message == alarm.message && u.raisedAt == alarm.raisedAt && u.receivedAt == receivedAt
  {
    SystemAlarmUpdate(alarm.alarmType, alarm.severity, alarm.message, alarm.raisedAt, receivedAt)
  }

  /** What a publish adds to the broker's log: the message when connected,
      nothing otherwise. */
  function Delivered(connected: bool, m: Message): (d: seq<Message>)
    ensures connected <==> d == [m]
    ensures !connected <==> d == []
  {
    if connected then [m] else []
  }

  class AlarmService {
    const publisher: Publisher
    const store: AlarmStore
    const topics: MqttTopics

    constructor (publisher: Publisher, store: AlarmStore, topics: MqttTopics)
      ensures this.publisher == publisher && this.store == store && this.topics == topics
    {
      this.publisher := publisher;
      this.store := store;
      this.topics := topics;
    }

    /** `RaiseAsync(type, severity, message)`. The two readings of
        `DateTimeOffset.UtcNow` are the parameters `raisedAt` and
        `receivedAt`. The store insertion happens whether or not the
        publish reached the broker. */
    method Raise(alarmType: string, severity: string, message: string,
                 raisedAt: DateTimeOffset, receivedAt: DateTimeOffset)
      modifies publisher`log, store, store.repository
      ensures publisher.log == old(publisher.log)
                + Delivered(publisher.isConnected,
                            AlarmMessage(topics, SystemAlarmPayload(alarmType, severity, message, raisedAt)))
      ensures store.alarms == Added(old(store.alarms),
                                    SystemAlarmUpdate(alarmType, severity, message, raisedAt, receivedAt),
                                    store.maxCount)
      ensures store.repository.inserts == old(store.repository.inserts)
                + [AlarmRecord(alarmType, severity, message, raisedAt, receivedAt)]
      ensures old(store.Valid()) ==> store.Valid()
    {
      var payload := SystemAlarmPayload(alarmType, severity, message, raisedAt);
      publisher.Publish(topics.systemAlarm, AlarmPayload(payload), true);
      store.Add(StoredAlarm(payload, receivedAt));
    }
  }
}
