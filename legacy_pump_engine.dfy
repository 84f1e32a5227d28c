/** `PumpEngineController` of the legacy Raspberry Pi application: switches
    the pump relay on pin 11, refusing to start on an empty tank. The GPIO
    pin is reduced to the log of the values written to it. */
module LegacyPumpEngine {
  import opened LegacyWaterLevel

  /** `PumpStatus`: the two states the controller moves between. */
  datatype PumpStatus = Stopped | Running

  /** `GpioPinValue`. */
  datatype PinValue = PinLow | PinHigh

  /** `GPIOPins.RunPumpPin`, the relay's pin. */
  const RUN_PUMP_PIN: int := 11

  class PumpEngineController {
    const levelController: WaterLevelController
    var status: PumpStatus
    /** Every value written to the relay pin, oldest first. */
    var pinWrites: seq<PinValue>
    /** The `Status` of every `PumpStateIsChanged` raised, oldest first. */
    var changes: seq<PumpStatus>

    /** The relay shows the status: the last value written is high exactly
        when the pump is running. */
    ghost predicate RelayMatchesStatus()
      reads this
    {
      pinWrites != [] && (pinWrites[|pinWrites| - 1] == PinHigh <==> status == Running)
    }

    /** `Init` drives the relay low. Nothing is assumed about the initial
        `Status`. */
    constructor (levelController: WaterLevelController)
      ensures this.levelController == levelController && pinWrites == [PinLow] && changes == []
      ensures status == Stopped ==> RelayMatchesStatus()
    {
      this.levelController := levelController;
      pinWrites := [PinLow];
      changes := [];
    }

    /** `StartPump`: from `Stopped`, and only when the tank is not empty,
        drives the relay high, becomes `Running` and announces it; anything
        else changes nothing. Returns the status after the call. */
    method StartPump() returns (r: PumpStatus)
      modifies this
      ensures r == status
      ensures old(status) == Stopped && levelController.waterLevel != Empty ==>
                status == Running && pinWrites == old(pinWrites) + [PinHigh] && changes == old(changes) + [Running]
      ensures !(old(status) == Stopped && levelController.waterLevel != Empty) ==>
                status == old(status) && pinWrites == old(pinWrites) && changes == old(changes)
      ensures old(RelayMatchesStatus()) ==> RelayMatchesStatus()
    {
      if status == Stopped {
        if levelController.waterLevel != Empty {
          pinWrites := pinWrites + [PinHigh];
          status := Running;
          changes := changes + [status];
        }
      }
      r := status;
    }

    /** `StopPump`: from `Running` drives the relay low, becomes `Stopped`
        and announces it; from `Stopped` it changes nothing. Returns the
        status after the call. */
    method StopPump() returns (r: PumpStatus)
      modifies this
      ensures r == status && status == Stopped
      ensures old(status) == Running ==> pinWrites == old(pinWrites) + [PinLow] && changes == old(changes) + [Stopped]
      ensures old(status) == Stopped ==> pinWrites == old(pinWrites) && changes == old(changes)
      ensures old(RelayMatchesStatus()) ==> RelayMatchesStatus()
    {
      if status == Running {
        pinWrites := pinWrites + [PinLow];
        status := Stopped;
        changes := changes + [status];
      }
      r := status;
    }
  }
}
