/**
 The state of the simulator form (the eight `useState` cells of
 src/ChargePointForm.tsx) and, for each event handler, the state it leaves
 behind. Each handler is one atomic step: the last write to an error key
 wins. These functions specify the methods of
 ChargePointForm.EVChargingSimulator.
 */
module FormModel {
  import opened Validation
  import opened Decimal
  import opened ChargePoints
  import Visualization

  datatype FormState = FormState(
    chargePoints: seq<Station>,
    multiplier: real,
    consumption: real,
    errors: map<string, string>,
    submitted: bool,
    power: int,
    stationAllocation: int,
    totalStations: int)

  // The keys under which the handlers file their messages.
  const StationAllocationKey: string := "stationAllocation"
  const PowerKey: string := "errorOfPower"
  const ConsumptionKey: string := "consumption"
  const AmountOfStationsKey: string := "amountOfStations"

  /** The per-station key `charge-${id}`. */
  function ChargeKey(id: int): string {
    "charge-" + IntToString(id)
  }

  /** What a handler writes under its key: "" on success, the first message otherwise. */
  function ErrorText(r: Result): string {
    if r.Accepted? then "" else r.message
  }

  /** `Cannot exceed total stations (${totalStations})`. */
  function ExceedMessage(totalStations: int): string {
    "Cannot exceed total stations (" + IntToString(totalStations) + ")"
  }

  /**
   What every reachable state satisfies: legal powers (default and per
   station), ids numbered by position, a ceiling that is 0 or a legal
   station count, a pending allocation that is 0 or fits the ceiling,
   and a legal consumption.
   */
  ghost predicate Inv(s: FormState) {
    && 0 <= s.power <= 11
    && PowersInRange(s.chargePoints)
    && IdsArePositions(s.chargePoints)
    && (s.totalStations == 0 || 1 <= s.totalStations <= 20)
    && (s.stationAllocation == 0 || 1 <= s.stationAllocation <= s.totalStations)
    && 1.0 <= s.consumption <= 100.0
  }

  /** The `useState` initialisers. */
  function Initial(): (s: FormState)
    ensures Inv(s) && s.chargePoints == [] && s.errors == map[] && !s.submitted
  {
    FormState([], 100.0, 18.0, map[], false, 11, 0, 0)
  }

  /** `handleStationAllocation(value)`: checked against the ceiling alone, not the remaining room. */
  function OnStationAllocation(s: FormState, value: real): FormState {
    var r := Validate(StationCount, value);
    if r.Rejected? then
      s.(errors := s.errors[StationAllocationKey := r.message])
    else if value > s.totalStations as real then
      s.(errors := s.errors[StationAllocationKey := ExceedMessage(s.totalStations)])
    else
      s.(errors := s.errors[StationAllocationKey := ""], stationAllocation := value.Floor)
  }

  /**
   `hndleAddChargePoint(value)`: a non-positive request is ignored; one
   that would overflow the ceiling is reported; otherwise `value` (as
   `Array.from` truncates it) new stations with the default power are
   appended and the pending allocation is cleared.
   */
  function OnAddChargePoint(s: FormState, value: real): FormState {
    if value <= 0.0 then s
    else if |s.chargePoints| as real + value > s.totalStations as real then
      s.(errors := s.errors[StationAllocationKey := ExceedMessage(s.totalStations)])
    else
      s.(chargePoints := s.chargePoints + NewStations(|s.chargePoints|, value.Floor, s.power),
         stationAllocation := 0)
  }

  /** `handleChargePower(id, value)`: the per-station key is always written. */
  function OnChargePower(s: FormState, id: int, value: real): FormState {
    var r := Validate(StationPower, value);
    s.(errors := s.errors[ChargeKey(id) := ErrorText(r)],
       chargePoints := if r.Accepted? then WithPower(s.chargePoints, id, value.Floor) else s.chargePoints)
  }

  /** `handlePower(value)`: the default power for new stations. */
  function OnPower(s: FormState, value: real): FormState {
    var r := Validate(StationPower, value);
    s.(errors := s.errors[PowerKey := ErrorText(r)],
       power := if r.Accepted? then value.Floor else s.power)
  }

  /** `handleConsumption(value)`: stored as given, fractions included. */
  function OnConsumption(s: FormState, value: real): FormState {
    var r := Validate(Consumption, value);
    s.(errors := s.errors[ConsumptionKey := ErrorText(r)],
       consumption := if r.Accepted? then value else s.consumption)
  }

  /** `handleAmountOfStations(value)`: a new ceiling clears the allocation and never trims the roster. */
  function OnAmountOfStations(s: FormState, value: real): FormState {
    var r := Validate(StationCount, value);
    if r.Accepted? then
      s.(errors := s.errors[AmountOfStationsKey := ""], totalStations := value.Floor, stationAllocation := 0)
    else
      s.(errors := s.errors[AmountOfStationsKey := r.message])
  }

  /** `handleMultiplier(value)`: no validation at all. */
  function OnMultiplier(s: FormState, value: real): FormState {
    s.(multiplier := value)
  }

  /** `handleFormSubmit`: from now on the charts are shown. */
  function OnFormSubmit(s: FormState): FormState {
    s.(submitted := true)
  }

  /** What the right-hand panel shows: the fallback, or the charts of the current snapshot. */
  datatype Panel = Fallback | Charts(metrics: Visualization.Metrics)

  /** The render hand-off: a submitted form passes the roster, `multiplier * 0.01` and the consumption. */
  function Rendered(s: FormState): Panel {
    if s.submitted then
      Charts(Visualization.Estimate(s.chargePoints, Visualization.Fraction(s.multiplier), s.consumption))
    else Fallback
  }

  // ---------------------------------------------------------------------
  // Error keys

  /** Distinct stations file their errors under distinct keys. */
  lemma ChargeKeyInjective(a: int, b: int)
    requires ChargeKey(a) == ChargeKey(b)
    ensures a == b
  {
    assert IntToString(a) == ChargeKey(a)[7..] == ChargeKey(b)[7..] == IntToString(b);
    IntToStringInjective(a, b);
  }

  /** A per-station key never collides with the form's fixed keys. */
  lemma ChargeKeyIsNotFixed(id: int)
    ensures ChargeKey(id) != StationAllocationKey && ChargeKey(id) != PowerKey
    ensures ChargeKey(id) != ConsumptionKey && ChargeKey(id) != AmountOfStationsKey
  {
    assert ChargeKey(id)[1] == 'h';
  }

  // ---------------------------------------------------------------------
  // handleStationAllocation

  /**
   The three outcomes of an allocation request: the schema message, the
   ceiling message, or acceptance; only the last one changes the pending
   allocation, and nothing but that key and that cell ever changes.
   */
  lemma StationAllocationOutcomes(s: FormState, value: real)
    ensures var t := OnStationAllocation(s, value);
      t.chargePoints == s.chargePoints && t.totalStations == s.totalStations &&
      t.power == s.power && t.multiplier == s.multiplier && t.consumption == s.consumption &&
      t.submitted == s.submitted &&
      t.errors.Keys == s.errors.Keys + {StationAllocationKey} &&
      (forall k :: k in s.errors && k != StationAllocationKey ==> t.errors[k] == s.errors[k]) &&
      (!InDomain(StationCount, value) ==>
         t.errors[StationAllocationKey] == Validate(StationCount, value).message &&
         t.stationAllocation == s.stationAllocation) &&
      (InDomain(StationCount, value) && value > s.totalStations as real ==>
         t.errors[StationAllocationKey] == ExceedMessage(s.totalStations) &&
         t.stationAllocation == s.stationAllocation) &&
      (InDomain(StationCount, value) && value <= s.totalStations as real ==>
         t.errors[StationAllocationKey] == "" && t.stationAllocation as real == value)
  {
  }

  /** With no ceiling configured yet, every request leaves an error and no allocation. */
  lemma ZeroCeilingRejectsAllocation(s: FormState, value: real)
    requires s.totalStations == 0
    ensures OnStationAllocation(s, value).stationAllocation == s.stationAllocation
    ensures OnStationAllocation(s, value).errors[StationAllocationKey] != ""
  {
  }

  /**
   The request is judged against the ceiling alone: two forms that differ
   only in their rosters accept or refuse the same allocation.
   */
  lemma AllocationIgnoresRoster(s: FormState, cps: seq<Station>, value: real)
    ensures OnStationAllocation(s.(chargePoints := cps), value) ==
            OnStationAllocation(s, value).(chargePoints := cps)
  {
  }

  // ---------------------------------------------------------------------
  // hndleAddChargePoint

  /** A request of zero or less changes nothing, not even the error map. */
  lemma AddIgnoresNonPositive(s: FormState, value: real)
    requires value <= 0.0
    ensures OnAddChargePoint(s, value) == s
  {
  }

  /** A request that does not fit leaves roster and allocation alone and reports the current ceiling. */
  lemma AddRejectsOverflow(s: FormState, value: real)
    requires value > 0.0 && |s.chargePoints| as real + value > s.totalStations as real
    ensures OnAddChargePoint(s, value) ==
            s.(errors := s.errors[StationAllocationKey := ExceedMessage(s.totalStations)])
  {
  }

  /**
   A request that fits appends exactly `count` stations numbered after the
   existing ones with the default power, keeps the old entries and the
   error map, clears the allocation, and leaves the roster within the ceiling.
   */
  lemma AddAppends(s: FormState, count: nat)
    requires count > 0 && |s.chargePoints| + count <= s.totalStations
    ensures var t := OnAddChargePoint(s, count as real);
      |t.chargePoints| == |s.chargePoints| + count &&
      t.chargePoints[..|s.chargePoints|] == s.chargePoints &&
      (forall i :: |s.chargePoints| <= i < |t.chargePoints| ==>
         t.chargePoints[i] == Station(i + 1, s.power)) &&
      t.stationAllocation == 0 && t.errors == s.errors &&
      |t.chargePoints| <= t.totalStations &&
      t == s.(chargePoints := t.chargePoints, stationAllocation := 0)
  {
  }

  /** A fitting request raises the charts' peak load by `count` times the default power. */
  lemma AddRaisesPeakLoad(s: FormState, count: nat, m: real, c: real)
    requires count > 0 && |s.chargePoints| + count <= s.totalStations
    ensures Visualization.Estimate(OnAddChargePoint(s, count as real).chargePoints, m, c).peakLoad ==
            Visualization.Estimate(s.chargePoints, m, c).peakLoad + count * s.power
  {
    var t := OnAddChargePoint(s, count as real);
    AppendAddsPower(s.chargePoints, count, s.power);
    Visualization.PeakLoadIsTotalPower(t.chargePoints, m, c, m, c);
    Visualization.PeakLoadIsTotalPower(s.chargePoints, m, c, m, c);
  }

  /** A fractional request adds as many stations as its integer part, as `Array.from` does. */
  lemma AddTruncatesLength(s: FormState, value: real)
    requires value > 0.0 && |s.chargePoints| as real + value <= s.totalStations as real
    ensures |OnAddChargePoint(s, value).chargePoints| == |s.chargePoints| + value.Floor
  {
  }

  // ---------------------------------------------------------------------
  // handleChargePower, handlePower, handleConsumption

  /**
   A power edit always writes its station's key: "" on success, the
   schema's message otherwise, and no other key is added or changed; on
   success it rewrites the station with that id and no other, on failure
   the roster is unchanged; other stations keep their messages.
   */
  lemma ChargePowerEffect(s: FormState, id: int, value: real)
    requires IdsArePositions(s.chargePoints)
    ensures var t := OnChargePower(s, id, value);
      t.errors == s.errors[ChargeKey(id) := ErrorText(Validate(StationPower, value))] &&
      (t.errors[ChargeKey(id)] == "" <==> InDomain(StationPower, value)) &&
      (!InDomain(StationPower, value) ==> t.errors[ChargeKey(id)] == Validate(StationPower, value).message) &&
      (forall other :: other != id && ChargeKey(other) in s.errors ==>
         t.errors[ChargeKey(other)] == s.errors[ChargeKey(other)]) &&
      t.chargePoints ==
        (if InDomain(StationPower, value) && 1 <= id <= |s.chargePoints|
         then s.chargePoints[id - 1 := Station(id, value.Floor)]
         else s.chargePoints) &&
      t == s.(errors := t.errors, chargePoints := t.chargePoints)
  {
    WithPowerAt(s.chargePoints, id, value.Floor);
    forall other | other != id && ChargeKey(other) in s.errors
      ensures OnChargePower(s, id, value).errors[ChargeKey(other)] == s.errors[ChargeKey(other)]
    {
      if ChargeKey(other) == ChargeKey(id) {
        ChargeKeyInjective(other, id);
      }
    }
  }

  /** The default power changes only to a legal station power. */
  lemma PowerEffect(s: FormState, value: real)
    ensures var t := OnPower(s, value);
      t.errors[PowerKey] == ErrorText(Validate(StationPower, value)) &&
      t.power == (if InDomain(StationPower, value) then value.Floor else s.power) &&
      (0 <= s.power <= 11 ==> 0 <= t.power <= 11) &&
      t == s.(errors := s.errors[PowerKey := ErrorText(Validate(StationPower, value))], power := t.power)
  {
  }

  /** Consumption keeps any accepted value, fractional ones too, and stays in [1, 100]. */
  lemma ConsumptionEffect(s: FormState, value: real)
    requires 1.0 <= s.consumption <= 100.0
    ensures var t := OnConsumption(s, value);
      t.consumption == (if 1.0 <= value <= 100.0 then value else s.consumption) &&
      1.0 <= t.consumption <= 100.0 &&
      t.errors[ConsumptionKey] == ErrorText(Validate(Consumption, value)) &&
      t == s.(errors := s.errors[ConsumptionKey := ErrorText(Validate(Consumption, value))], consumption := t.consumption)
  {
  }

  // ---------------------------------------------------------------------
  // handleAmountOfStations

  /**
   A new ceiling: on acceptance it is stored and the allocation cleared;
   on rejection only the key changes; the roster never changes.
   */
  lemma AmountOfStationsEffect(s: FormState, value: real)
    ensures var t := OnAmountOfStations(s, value);
      t.chargePoints == s.chargePoints &&
      (InDomain(StationCount, value) ==>
         t == s.(errors := s.errors[AmountOfStationsKey := ""], totalStations := value.Floor, stationAllocation := 0) &&
         t.totalStations as real == value) &&
      (!InDomain(StationCount, value) ==>
         t == s.(errors := s.errors[AmountOfStationsKey := Validate(StationCount, value).message]))
  {
  }

  /**
   Lowering the ceiling below the roster size is accepted and does not
   trim: a roster larger than the ceiling is reachable from a valid state.
   */
  lemma CeilingCanFallBelowRoster(s: FormState)
    requires Inv(s) && |s.chargePoints| >= 2
    ensures var t := OnAmountOfStations(s, 1.0);
      Inv(t) && |t.chargePoints| > t.totalStations
  {
  }

  // ---------------------------------------------------------------------
  // The invariant

  lemma StationAllocationKeepsInv(s: FormState, value: real)
    requires Inv(s)
    ensures Inv(OnStationAllocation(s, value))
  {
  }

  lemma AddChargePointKeepsInv(s: FormState, value: real)
    requires Inv(s)
    ensures Inv(OnAddChargePoint(s, value))
  {
    if value > 0.0 && |s.chargePoints| as real + value <= s.totalStations as real {
      AppendKeepsIds(s.chargePoints, value.Floor, s.power);
      AppendKeepsPowers(s.chargePoints, |s.chargePoints|, value.Floor, s.power);
    }
  }

  lemma ChargePowerKeepsInv(s: FormState, id: int, value: real)
    requires Inv(s)
    ensures Inv(OnChargePower(s, id, value))
  {
    WithPowerKeepsIds(s.chargePoints, id, value.Floor);
    if InDomain(StationPower, value) {
      WithPowerKeepsPowers(s.chargePoints, id, value.Floor);
    }
  }

  lemma PowerKeepsInv(s: FormState, value: real)
    requires Inv(s)
    ensures Inv(OnPower(s, value))
  {
  }

  lemma ConsumptionKeepsInv(s: FormState, value: real)
    requires Inv(s)
    ensures Inv(OnConsumption(s, value))
  {
  }

  lemma AmountOfStationsKeepsInv(s: FormState, value: real)
    requires Inv(s)
    ensures Inv(OnAmountOfStations(s, value))
  {
  }

  // ---------------------------------------------------------------------
  // The hand-off to the charts

  /**
   Once submitted the panel shows the charts of the current snapshot: its
   peak load is the roster's total power, at most 11 kW per station, and
   its events are stations * percent / 10 per day.
   */
  lemma RenderedCharts(s: FormState)
    requires Inv(s) && s.submitted
    ensures Rendered(s).Charts?
    ensures Rendered(s).metrics.peakLoad == SumPowers(s.chargePoints)
    ensures 0 <= Rendered(s).metrics.peakLoad <= 11 * |s.chargePoints|
    ensures Rendered(s).metrics.estimatedCarsPerDay == |s.chargePoints| as real * s.multiplier / 10.0
  {
    var m, c := Visualization.Fraction(s.multiplier), s.consumption;
    Visualization.PeakLoadIsTotalPower(s.chargePoints, m, c, m, c);
    Visualization.PeakLoadBounds(s.chargePoints, m, c);
    Visualization.EventsFromPercent(s.chargePoints, s.multiplier, c);
  }
}
