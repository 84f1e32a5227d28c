/** `WaterLevelStateStore` and `PumpStateStore`: one slot each holding the
    latest payload received from the bus together with its receipt time.
    The locks in the source make each operation atomic; the model has no
    concurrency. */
module StateStores {
  import opened Base
  import opened Contracts

  /** `WaterLevelSnapshot(Payload, ReceivedAt)`. */
  datatype WaterLevelSnapshot = WaterLevelSnapshot(payload: WaterLevelStatePayload, receivedAt: DateTimeOffset)

  /** `PumpStateSnapshot(Payload, ReceivedAt)`. */
  datatype PumpStateSnapshot = PumpStateSnapshot(payload: PumpStatePayload, receivedAt: DateTimeOffset)

  class WaterLevelStateStore {
    var latest: Option<WaterLevelSnapshot>

    /** A new store holds nothing. */
    constructor ()
      ensures latest == None
    {
      latest := None;
    }

    /** `GetLatest`: the slot, unchanged. */
    method GetLatest() returns (r: Option<WaterLevelSnapshot>)
      ensures r == latest
    {
      r := latest;
    }

    /** `Update(payload, receivedAt)`: the slot is replaced wholesale, so
        whatever it held before is gone. */
    method Update(payload: WaterLevelStatePayload, receivedAt: DateTimeOffset)
      modifies this
      ensures latest == Some(WaterLevelSnapshot(payload, receivedAt))
    {
      latest := Some(WaterLevelSnapshot(payload, receivedAt));
    }
  }

  class PumpStateStore {
    var latest: Option<PumpStateSnapshot>

    /** A new store holds nothing. */
    constructor ()
      ensures latest == None
    {
      latest := None;
    }

    /** `GetLatest`: the slot, unchanged. */
    method GetLatest() returns (r: Option<PumpStateSnapshot>)
      ensures r == latest
    {
      r := latest;
    }

    /** `Update(payload, receivedAt)`: the slot is replaced wholesale. */
    method Update(payload: PumpStatePayload, receivedAt: DateTimeOffset)
      modifies this
      ensures latest == Some(PumpStateSnapshot(payload, receivedAt))
    {
      latest := Some(PumpStateSnapshot(payload, receivedAt));
    }
  }
}
