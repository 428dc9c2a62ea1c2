/**
 The simulator component of src/ChargePointForm.tsx as an object: one field
 per `useState` cell and one method per event handler. Each method does what
 the handler does, write by write, and is proved to leave the state that
 FormModel prescribes and to keep FormModel.Inv.
 */
module ChargePointForm {
  import opened Validation
  import opened ChargePoints
  import opened FormModel

  class EVChargingSimulator {
    var chargePoints: seq<Station>
    var multiplier: real
    var consumption: real
    var errors: map<string, string>
    var submitted: bool
    var power: int
    var stationAllocation: int
    var totalStations: int

    /** The current snapshot of all eight cells. */
    function State(): FormState
      reads this
    {
      FormState(chargePoints, multiplier, consumption, errors, submitted, power, stationAllocation, totalStations)
    }

    ghost predicate Valid()
      reads this
    {
      Inv(State())
    }

    constructor ()
      ensures Valid() && State() == Initial()
    {
      chargePoints := [];
      multiplier := 100.0;
      consumption := 18.0;
      errors := map[];
      submitted := false;
      power := 11;
      stationAllocation := 0;
      totalStations := 0;
    }

    method HandleStationAllocation(value: real)
      requires Valid()
      modifies this
      ensures Valid()
      ensures State() == OnStationAllocation(old(State()), value)
    {
      StationAllocationKeepsInv(State(), value);
      var result := Validate(StationCount, value);
      // The text the queued `setErrors` updates leave under the key; the last one wins.
      var text := ErrorText(result);
      if totalStations == 0 {
        // `result.error?.errors[0].message || ""`
        text := if result.Rejected? then result.message else "";
      }
      if result.Accepted? {
        if value > totalStations as real {
          text := ExceedMessage(totalStations);
          errors := errors[StationAllocationKey := text];
          return;
        }
        stationAllocation := value.Floor;
      }
      errors := errors[StationAllocationKey := text];
    }

    method HandleAddChargePoint(value: real)
      requires Valid()
      modifies this
      ensures Valid()
      ensures State() == OnAddChargePoint(old(State()), value)
    {
      AddChargePointKeepsInv(State(), value);
      if value <= 0.0 {
        return;
      }
      var futureTotal := |chargePoints| as real + value;
      if futureTotal > totalStations as real {
        errors := errors[StationAllocationKey := ExceedMessage(totalStations)];
        return;
      }
      chargePoints := chargePoints + NewStations(|chargePoints|, value.Floor, power);
      stationAllocation := 0;
    }

    method HandleFormSubmit()
      requires Valid()
      modifies this
      ensures Valid()
      ensures State() == OnFormSubmit(old(State()))
    {
      submitted := true;
    }

    method HandleMultiplier(value: real)
      requires Valid()
      modifies this
      ensures Valid()
      ensures State() == OnMultiplier(old(State()), value)
    {
      multiplier := value;
    }

    method HandleChargePower(id: int, value: real)
      requires Valid()
      modifies this
      ensures Valid()
      ensures State() == OnChargePower(old(State()), id, value)
    {
      ChargePowerKeepsInv(State(), id, value);
      var result := Validate(StationPower, value);
      errors := errors[ChargeKey(id) := ErrorText(result)];
      if result.Accepted? {
        chargePoints := WithPower(chargePoints, id, value.Floor);
      }
    }

    method HandlePower(value: real)
      requires Valid()
      modifies this
      ensures Valid()
      ensures State() == OnPower(old(State()), value)
    {
      PowerKeepsInv(State(), value);
      var result := Validate(StationPower, value);
      errors := errors[PowerKey := ErrorText(result)];
      if result.Accepted? {
        power := value.Floor;
      }
    }

    method HandleConsumption(value: real)
      requires Valid()
      modifies this
      ensures Valid()
      ensures State() == OnConsumption(old(State()), value)
    {
      ConsumptionKeepsInv(State(), value);
      var result := Validate(Consumption, value);
      errors := errors[ConsumptionKey := ErrorText(result)];
      if result.Accepted? {
        consumption := value;
      }
    }

    method HandleAmountOfStations(value: real)
      requires Valid()
      modifies this
      ensures Valid()
      ensures State() == OnAmountOfStations(old(State()), value)
    {
      AmountOfStationsKeepsInv(State(), value);
      var result := Validate(StationCount, value);
      errors := errors[AmountOfStationsKey := ErrorText(result)];
      if result.Accepted? {
        totalStations := value.Floor;
        stationAllocation := 0;
      }
    }
  }

  /** A fresh form with the given ceiling and default power, and `count` stations added. */
  method FormWithStations(ceiling: nat, power: nat, count: nat) returns (form: EVChargingSimulator)
    requires 1 <= count <= ceiling <= 20 && power <= 11
    ensures fresh(form) && form.Valid()
    ensures form.totalStations == ceiling && form.power == power && form.stationAllocation == 0
    ensures form.chargePoints == NewStations(0, count, power)
  {
    form := new EVChargingSimulator();
    StationCountVerdict(ceiling as real);
    StationCountVerdict(count as real);
    ChargePowerVerdict(power as real);
    form.HandleAmountOfStations(ceiling as real);
    form.HandlePower(power as real);
    form.HandleStationAllocation(count as real);
    form.HandleAddChargePoint(form.stationAllocation as real);
  }

  /**
   With a ceiling of 2, allocating and adding 2 stations gives the roster
   `[{id: 1, power: 11}, {id: 2, power: 11}]`; a further request for 3 is
   refused and leaves it.
   */
  method TwoStationScenario() returns (cps: seq<Station>)
    ensures cps == [Station(1, 11), Station(2, 11)]
  {
    var form := FormWithStations(2, 11, 2);
    form.HandleAddChargePoint(3.0);
    cps := form.chargePoints;
  }

  /**
   One station added at a default power of 5 kW: setting it to 15 kW is
   refused with the upper-bound message and the roster stays `[{id: 1, power: 5}]`.
   */
  method PowerRefusedScenario() returns (cps: seq<Station>, message: string)
    ensures cps == [Station(1, 5)]
    ensures message == "cannot exceed 11 kW"
  {
    var form := FormWithStations(1, 5, 1);
    ChargePowerVerdict(15.0);
    form.HandleChargePower(1, 15.0);
    cps, message := form.chargePoints, form.errors[ChargeKey(1)];
  }

  /**
   The allocation is checked against the ceiling alone: with 3 of 5
   stations in place a request for 4 is accepted, and only the add step
   refuses it, naming the ceiling 5.
   */
  method AllocationBeyondRoomScenario() returns (allocation: int, rosterSize: nat, message: string)
    ensures allocation == 4 && rosterSize == 3
    ensures message == "Cannot exceed total stations (5)"
  {
    var form := FormWithStations(5, 11, 3);
    StationCountVerdict(4.0);
    form.HandleStationAllocation(4.0);
    allocation := form.stationAllocation;
    form.HandleAddChargePoint(allocation as real);
    assert Decimal.IntToString(5) == "5";
    rosterSize, message := |form.chargePoints|, form.errors[StationAllocationKey];
  }

  /** Lowering the ceiling from 3 to 1 keeps all three stations. */
  method CeilingShrinkScenario() returns (rosterSize: nat, ceiling: int)
    ensures rosterSize == 3 && ceiling == 1
  {
    var form := FormWithStations(3, 11, 3);
    StationCountVerdict(1.0);
    form.HandleAmountOfStations(1.0);
    rosterSize, ceiling := |form.chargePoints|, form.totalStations;
  }
}
