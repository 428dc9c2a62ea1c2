/**
 The estimation at the top of the `Visualization` component (src/Visual.tsx):
 closed-form arithmetic over the roster, the arrival multiplier (already a
 fraction: the form passes `multiplier * 0.01`) and the energy per car.
 Arithmetic is exact (real), an idealisation of the source's doubles.
 */
module Visualization {
  import opened ChargePoints

  /** A row of the energy chart. */
  datatype EnergyRow = EnergyRow(name: string, energy: real)

  /** A row of the combined chart: events, peak power and energy for one period. */
  datatype TimeRow = TimeRow(name: string, events: real, power: int, energy: real)

  /** A row of the events chart. */
  datatype EventsRow = EventsRow(name: string, events: real)

  /** Every value the component derives before rendering. */
  datatype Metrics = Metrics(
    numStations: nat,
    estimatedCarsPerDay: real,
    dailyEnergy: real,
    weeklyEnergy: real,
    monthlyEnergy: real,
    peakLoad: int,
    energyConsumptionData: seq<EnergyRow>,
    timeBasedData: seq<TimeRow>,
    eventsData: seq<EventsRow>)

  /** Baseline arrivals per station and day at a multiplier of 1. */
  const ArrivalsPerStation: real := 10.0

  /** The hand-off `multiplier * 0.01` from the percentage slider to a fraction. */
  function Fraction(percent: real): (f: real)
    ensures f * 100.0 == percent
  {
    percent * 0.01
  }

  /** `chargePoints.reduce((sum, cp) => sum + cp.power, acc)`: a left fold. */
  function Reduce(acc: int, cps: seq<Station>): int
    decreases |cps|
  {
    if cps == [] then acc else Reduce(acc + cps[0].power, cps[1..])
  }

  /** The derived values and the three chart row arrays. */
  function Estimate(chargePoints: seq<Station>, multiplier: real, consumptionPerCar: real): Metrics {
    var numStations := |chargePoints|;
    var estimatedCarsPerDay := numStations as real * ArrivalsPerStation * multiplier;
    var dailyEnergy := estimatedCarsPerDay * consumptionPerCar;
    var monthlyEnergy := dailyEnergy * 30.0;
    var weeklyEnergy := dailyEnergy * 7.0;
    var energyConsumptionData := [
      EnergyRow("Daily", dailyEnergy),
      EnergyRow("Weekly", weeklyEnergy),
      EnergyRow("Monthly", monthlyEnergy)];
    var peakLoad := Reduce(0, chargePoints);
    var timeBasedData := [
      TimeRow("Day", estimatedCarsPerDay, peakLoad, dailyEnergy),
      TimeRow("Week", estimatedCarsPerDay * 7.0, peakLoad, dailyEnergy * 7.0),
      TimeRow("Month", estimatedCarsPerDay * 30.0, peakLoad, monthlyEnergy)];
    var eventsData := [
      EventsRow("day", estimatedCarsPerDay),
      EventsRow("week", estimatedCarsPerDay * 7.0),
      EventsRow("month", estimatedCarsPerDay * 30.0)];
    Metrics(numStations, estimatedCarsPerDay, dailyEnergy, weeklyEnergy, monthlyEnergy,
            peakLoad, energyConsumptionData, timeBasedData, eventsData)
  }

  /** The fold started at acc adds the roster's total power to acc. */
  lemma {:induction false} ReduceAddsSum(acc: int, cps: seq<Station>)
    ensures Reduce(acc, cps) == acc + SumPowers(cps)
    decreases |cps|
  {
    if cps != [] {
      ReduceAddsSum(acc + cps[0].power, cps[1..]);
    }
  }

  /** The peak load is the exact total power and ignores multiplier and consumption. */
  lemma PeakLoadIsTotalPower(cps: seq<Station>, m1: real, c1: real, m2: real, c2: real)
    ensures Estimate(cps, m1, c1).peakLoad == SumPowers(cps)
    ensures Estimate(cps, m1, c1).peakLoad == Estimate(cps, m2, c2).peakLoad
  {
    ReduceAddsSum(0, cps);
  }

  /** With legal station powers the peak load is at most 11 kW per station. */
  lemma PeakLoadBounds(cps: seq<Station>, m: real, c: real)
    requires PowersInRange(cps)
    ensures 0 <= Estimate(cps, m, c).peakLoad <= 11 * |cps|
  {
    ReduceAddsSum(0, cps);
    SumPowersBounds(cps);
  }

  /** Events scale with the percentage: stations * percent / 10 per day. */
  lemma EventsFromPercent(cps: seq<Station>, percent: real, c: real)
    ensures Estimate(cps, Fraction(percent), c).estimatedCarsPerDay == |cps| as real * percent / 10.0
  {
  }

  /** An empty roster yields zero events, zero energy in every period and zero peak load. */
  lemma EmptyRosterIsZero(m: real, c: real)
    ensures var r := Estimate([], m, c);
      r.numStations == 0 && r.estimatedCarsPerDay == 0.0 && r.dailyEnergy == 0.0 &&
      r.weeklyEnergy == 0.0 && r.monthlyEnergy == 0.0 && r.peakLoad == 0 &&
      (forall i :: 0 <= i < |r.timeBasedData| ==>
         r.timeBasedData[i].events == 0.0 && r.timeBasedData[i].power == 0 && r.timeBasedData[i].energy == 0.0) &&
      (forall i :: 0 <= i < |r.energyConsumptionData| ==> r.energyConsumptionData[i].energy == 0.0) &&
      (forall i :: 0 <= i < |r.eventsData| ==> r.eventsData[i].events == 0.0)
  {
  }

  /** Weekly and monthly figures are the daily ones times 7 and times 30. */
  lemma PeriodScaling(cps: seq<Station>, m: real, c: real)
    ensures var r := Estimate(cps, m, c);
      r.dailyEnergy == r.estimatedCarsPerDay * c &&
      r.weeklyEnergy == 7.0 * r.dailyEnergy && r.monthlyEnergy == 30.0 * r.dailyEnergy
  {
  }

  /** Day, Week, Month rows: the same peak power in each, events and energy times 1, 7, 30. */
  lemma TimeRows(cps: seq<Station>, m: real, c: real)
    ensures var r := Estimate(cps, m, c);
      |r.timeBasedData| == 3 &&
      r.timeBasedData[0].name == "Day" && r.timeBasedData[1].name == "Week" && r.timeBasedData[2].name == "Month" &&
      (forall i :: 0 <= i < 3 ==> r.timeBasedData[i].power == SumPowers(cps)) &&
      r.timeBasedData[0].events == r.estimatedCarsPerDay &&
      r.timeBasedData[1].events == 7.0 * r.estimatedCarsPerDay &&
      r.timeBasedData[2].events == 30.0 * r.estimatedCarsPerDay &&
      r.timeBasedData[0].energy == r.dailyEnergy &&
      r.timeBasedData[1].energy == r.weeklyEnergy &&
      r.timeBasedData[2].energy == r.monthlyEnergy
  {
    ReduceAddsSum(0, cps);
  }

  /** Daily, Weekly, Monthly energy rows and day, week, month event rows. */
  lemma ChartRows(cps: seq<Station>, m: real, c: real)
    ensures var r := Estimate(cps, m, c);
      r.energyConsumptionData ==
        [EnergyRow("Daily", r.dailyEnergy), EnergyRow("Weekly", 7.0 * r.dailyEnergy), EnergyRow("Monthly", 30.0 * r.dailyEnergy)] &&
      r.eventsData ==
        [EventsRow("day", r.estimatedCarsPerDay), EventsRow("week", 7.0 * r.estimatedCarsPerDay), EventsRow("month", 30.0 * r.estimatedCarsPerDay)]
  {
  }

  /** Products of non-negative factors grow with each factor. */
  lemma ProductMonotone(a1: real, a2: real, b1: real, b2: real)
    requires 0.0 <= a1 <= a2 && 0.0 <= b1 <= b2
    ensures a1 * b1 <= a2 * b2
  {
  }

  /** Events and energies are non-decreasing in stations, multiplier and consumption. */
  lemma Monotone(cps1: seq<Station>, m1: real, c1: real, cps2: seq<Station>, m2: real, c2: real)
    requires |cps1| <= |cps2| && 0.0 <= m1 <= m2 && 0.0 <= c1 <= c2
    ensures var r1, r2 := Estimate(cps1, m1, c1), Estimate(cps2, m2, c2);
      r1.estimatedCarsPerDay <= r2.estimatedCarsPerDay &&
      r1.dailyEnergy <= r2.dailyEnergy &&
      r1.weeklyEnergy <= r2.weeklyEnergy &&
      r1.monthlyEnergy <= r2.monthlyEnergy
  {
    var n1, n2 := |cps1| as real * ArrivalsPerStation, |cps2| as real * ArrivalsPerStation;
    ProductMonotone(n1, n2, m1, m2);
    ProductMonotone(n1 * m1, n2 * m2, c1, c2);
  }
}
