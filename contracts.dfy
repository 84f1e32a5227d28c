/** The records the backend exchanges (bus payloads, SignalR updates, command
    results) and the two outbound channels every component writes to: the
    MQTT publisher and the SignalR hub, each reduced to a log of what was
    handed to it. */
module Contracts {
  import opened Base

  /** A command id. The backend draws a fresh `Guid` for every command it
      builds; the model numbers them instead, so distinct commands carry
      distinct ids. */
  type RequestId = nat

  /** `WaterLevelStatePayload`. */
  datatype WaterLevelStatePayload = WaterLevelStatePayload(
    levelPercent: int32,
    sensors: seq<bool>,
    measuredAt: DateTimeOffset,
    reportedAt: DateTimeOffset)

  /** `PumpStatePayload`. */
  datatype PumpStatePayload = PumpStatePayload(
    running: bool,
    since: Option<DateTimeOffset>,
    lastRunSeconds: int32,
    lastRequestId: Option<string>,
    reportedAt: DateTimeOffset)

  /** `SystemAlarmPayload`: what is received on, and published to, the alarm
      topic. */
  datatype SystemAlarmPayload = SystemAlarmPayload(
    alarmType: string,
    severity: string,
    message: string,
    raisedAt: DateTimeOffset)

  /** `SystemAlarmUpdate`: an alarm as kept in the alarm store and sent to
      browsers. */
  datatype SystemAlarmUpdate = SystemAlarmUpdate(
    alarmType: string,
    severity: string,
    message: string,
    raisedAt: DateTimeOffset,
    receivedAt: DateTimeOffset)

  /** `WaterLevelUpdate`, the SignalR form of a water-level snapshot. */
  datatype WaterLevelUpdate = WaterLevelUpdate(
    levelPercent: int32,
    sensors: seq<bool>,
    measuredAt: DateTimeOffset,
    reportedAt: DateTimeOffset,
    receivedAt: DateTimeOffset)

  /** `PumpStateUpdate`, the SignalR form of a pump-state snapshot. */
  datatype PumpStateUpdate = PumpStateUpdate(
    running: bool,
    since: Option<DateTimeOffset>,
    lastRunSeconds: int32,
    lastRequestId: Option<string>,
    reportedAt: DateTimeOffset,
    receivedAt: DateTimeOffset)

  /** `PumpCommandRequest`, the command payload sent to the pump. */
  datatype PumpCommandRequest = PumpCommandRequest(
    action: string,
    runSeconds: Option<int32>,
    requestId: RequestId,
    reason: string,
    issuedAt: DateTimeOffset)

  /** `PumpCommandResult(Success, Error, RequestId, Reason)`. */
  datatype PumpCommandResult = PumpCommandResult(
    success: bool,
    error: Option<string>,
    requestId: Option<RequestId>,
    reason: Option<string>)

  /** What the backend serialises onto the bus. */
  datatype Payload = CommandPayload(command: PumpCommandRequest) | AlarmPayload(alarm: SystemAlarmPayload)

  /** One publish call that reached the broker. */
  datatype Message = Message(topic: string, payload: Payload, retain: bool)

  /** `IMqttPublisher`, as implemented by the MQTT client service: a publish
      while disconnected is logged and dropped, with no queue and no retry. */
  class Publisher {
    var isConnected: bool
    /** Every message handed to the broker, oldest first. */
    var log: seq<Message>

    constructor (connected: bool)
      ensures isConnected == connected && log == []
    {
      isConnected := connected;
      log := [];
    }

    method Publish(topic: string, payload: Payload, retain: bool)
      modifies this`log
      ensures log == if isConnected then old(log) + [Message(topic, payload, retain)] else old(log)
    {
      if isConnected {
        log := log + [Message(topic, payload, retain)];
      }
    }
  }

  /** A SignalR broadcast to all clients. */
  datatype HubEvent =
    | WaterLevelUpdated(waterLevel: WaterLevelUpdate)
    | PumpStateUpdated(pumpState: PumpStateUpdate)
    | AlarmRaised(alarm: SystemAlarmUpdate)

  /** `IHubContext<WateringHub>`, reduced to the broadcasts sent through it. */
  class Hub {
    var sent: seq<HubEvent>

    constructor ()
      ensures sent == []
    {
      sent := [];
    }

    method SendToAll(e: HubEvent)
      modifies this
      ensures sent == old(sent) + [e]
    {
      sent := sent + [e];
    }
  }
}
