# EV charging simulator: validation, form state and estimation

This project models the logic of a small React application that lets a user
configure a fleet of electric-vehicle charge points and estimates the resulting
charging events, energy and peak power. It has three parts:

- **Validation** (`validation.dfy`). The three zod schemas for station power,
  station count and per-car consumption. Each schema is a chain of checks, and
  `SafeParse` returns the first failing check's message. That is the message
  the form shows (`errors[0].message`).
- **The form** (`form_model.dfy`, `charge_point_form.dfy`). The eight `useState`
  cells of the simulator component and its eight event handlers.
  `FormModel.On*` gives, as a pure function, the state each handler leaves
  behind. `ChargePointForm.EVChargingSimulator` is a class with one field per
  cell and one method per handler, and each method is proved to produce exactly
  that state. `FormModel.Inv` is the invariant every reachable state keeps:
  - default power and every station power are integers in 0..11;
  - ids equal position + 1;
  - the ceiling is 0 or in 1..20;
  - the pending allocation is 0 or at most the ceiling;
  - consumption is in [1, 100].
- **Estimation** (`visualization.dfy`). The derived values and chart rows at
  the top of the visualization component:
  - events = stations × 10 × fraction;
  - energy = events × consumption;
  - week = ×7, month = ×30;
  - peak load = the roster's total power, the same in every row.

  The per-station error key `charge-${id}` and the ceiling message need integers
  printed in decimal; `decimal.dfy` does this and proves that the printing can
  be read back.

Behaviour of the code worth knowing. The comment at
src/ChargePointForm.tsx:40 says the allocation handler "ensures it doesn't
exceed total station limit"; what the code does is:
- An allocation request is compared with the ceiling alone
  (src/ChargePointForm.tsx:57). Only the add step compares the ceiling with
  the roster plus the request (`AllocationIgnoresRoster`,
  `AllocationBeyondRoomScenario`).
- Lowering the ceiling never trims the roster, so the roster can be larger than
  the ceiling (`CeilingCanFallBelowRoster`, `CeilingShrinkScenario`).
- The ceiling starts at 0 (src/ChargePointForm.tsx:36). With a ceiling of 0
  every allocation request is refused (`ZeroCeilingRejectsAllocation`).
- `handleMultiplier` stores its argument as it is. The slider that calls it
  (src/SimulationForm.tsx:133-138) offers 20..200, but the handler itself
  checks nothing.
- A new station's id is its position in the roster + 1 at the time it is
  added (src/ChargePointForm.tsx:89-90).

Numbers are exact `real`s. Values that passed an integer check are stored as
`int`.

## Model

| member | source | states |
|---|---|---|
| Validation.SafeParse | src/utilities/ZodSchemas.ts:3-18 | a chain accepts exactly when every check passes and then returns the input unchanged; otherwise the message is that of the first failing check, all earlier checks passing |
| Validation.Validate | src/utilities/ZodSchemas.ts:3-18 | each schema accepts exactly its domain (integer 0..11, integer 1..20, any number in [1, 100]), returns the value unchanged, and every rejection has a non-empty message |
| Validation.ChargePowerVerdict | src/utilities/ZodSchemas.ts:3-7 | station power: non-integer gives "Charging power must be an integer", then below 0 gives "Charging power cannot be negative", then above 11 gives "cannot exceed 11 kW", else accepted; both bounds inclusive |
| Validation.StationCountVerdict | src/utilities/ZodSchemas.ts:9-13 | station count: non-integer, below 1, above 20 (message " cannot exceed 20" with its leading space), in that order, else accepted |
| Validation.ConsumptionVerdict | src/utilities/ZodSchemas.ts:15-18 | consumption: below 1 and above 100 rejected with their messages; every number in [1, 100], fractions included, accepted |
| Validation.NonIntegerPowerMessage | src/utilities/ZodSchemas.ts:5-7 | a non-integer power is reported as non-integer even when it is also out of range |
| Validation.NonIntegerCountMessage | src/utilities/ZodSchemas.ts:11-13 | a non-integer count is reported as non-integer even when it is also out of range |
| Decimal.NatToString | src/ChargePointForm.tsx:60 | the decimal spelling of a non-negative integer is non-empty, all digits, with no leading zero |
| Decimal.NatToStringRoundTrip | src/ChargePointForm.tsx:60 | reading back the printed digits gives the number |
| Decimal.IntToString | src/ChargePointForm.tsx:119 | an integer's spelling starts with '-' exactly when it is negative |
| Decimal.NatToStringInjective | src/ChargePointForm.tsx:119 | different non-negative integers print differently |
| Decimal.IntToStringInjective | src/ChargePointForm.tsx:119 | different integers print differently |
| ChargePoints.AppendKeepsIds | src/ChargePointForm.tsx:86-92 | a batch `NewStations` numbered from the current length keeps id = position + 1 |
| ChargePoints.AppendKeepsPowers | src/ChargePointForm.tsx:86-92 | a batch `NewStations` made with a legal power keeps every power in 0..11 |
| ChargePoints.WithPowerAt | src/ChargePointForm.tsx:122-124 | on a roster numbered by position, the `map` edit `WithPower` rewrites exactly the station at position id - 1, and changes nothing when no station has that id |
| ChargePoints.WithPowerKeepsIds | src/ChargePointForm.tsx:122-124 | a power edit `WithPower` keeps the length and every station's id |
| ChargePoints.WithPowerKeepsPowers | src/ChargePointForm.tsx:122-124 | an edit `WithPower` to a legal power keeps every power in 0..11 |
| ChargePoints.SumPowersAppend | src/Visual.tsx:40 | `SumPowers` of a concatenation is the sum of the parts' totals (the step behind `AppendAddsPower`) |
| ChargePoints.SumPowersBounds | src/Visual.tsx:40 | with legal powers the total lies in 0..11 × number of stations |
| ChargePoints.NewStationsSum | src/ChargePointForm.tsx:88-91 | a batch `NewStations` of n stations at power p totals n × p |
| ChargePoints.AppendAddsPower | src/ChargePointForm.tsx:86-92 | appending a batch of n stations at power p raises `SumPowers` by n × p |
| Visualization.Fraction | src/ChargePointForm.tsx:197 | `multiplier * 0.01` is the percentage divided by 100 |
| Visualization.ReduceAddsSum | src/Visual.tsx:40 | the `reduce` fold `Reduce` from acc equals acc plus the roster's total power `SumPowers` |
| Visualization.PeakLoadIsTotalPower | src/Visual.tsx:40 | the peak load of `Estimate` is the exact total power and depends on neither multiplier nor consumption |
| Visualization.PeakLoadBounds | src/Visual.tsx:40 | with legal powers the peak load of `Estimate` lies in 0..11 × number of stations |
| Visualization.EventsFromPercent | src/Visual.tsx:22-23 | events per day in `Estimate` are stations × percent / 10 when the multiplier is `Fraction(percent)` |
| Visualization.EmptyRosterIsZero | src/Visual.tsx:22-81 | `Estimate` on an empty roster gives zero events, zero energy in every period, zero peak load and all-zero chart rows |
| Visualization.PeriodScaling | src/Visual.tsx:24-26 | in `Estimate` daily energy is events × consumption, weekly is 7 × daily, monthly is 30 × daily |
| Visualization.TimeRows | src/Visual.tsx:45-64 | `Estimate` has three time rows Day, Week, Month; every row's power is the total power; events ×1, ×7, ×30 and energy daily, weekly, monthly |
| Visualization.ChartRows | src/Visual.tsx:31-81 | `Estimate`'s energy rows are Daily, Weekly, Monthly with 1, 7, 30 × daily energy; its event rows are day, week, month with 1, 7, 30 × daily events |
| Visualization.Monotone | src/Visual.tsx:22-26 | with non-negative multiplier and consumption, the events and all energies of `Estimate` are non-decreasing in station count, multiplier and consumption together |
| FormModel.Initial | src/ChargePointForm.tsx:24-36 | the initial state satisfies the invariant, with an empty roster, an empty error map and the charts not shown |
| FormModel.ChargeKeyInjective | src/ChargePointForm.tsx:119 | distinct station ids file their errors under distinct keys |
| FormModel.ChargeKeyIsNotFixed | src/ChargePointForm.tsx:119 | a per-station key never clashes with the keys stationAllocation, errorOfPower, consumption, amountOfStations |
| FormModel.StationAllocationOutcomes | src/ChargePointForm.tsx:42-66 | `OnStationAllocation`: schema failure gives the schema message, an in-range value above the ceiling gives "Cannot exceed total stations (N)"; only acceptance stores the value and clears the key; no other key or cell changes |
| FormModel.ZeroCeilingRejectsAllocation | src/ChargePointForm.tsx:49-63 | `OnStationAllocation` with ceiling 0: no request changes the allocation and the key always holds a message |
| FormModel.AllocationIgnoresRoster | src/ChargePointForm.tsx:56-64 | the verdict of `OnStationAllocation` does not depend on the roster |
| FormModel.AddIgnoresNonPositive | src/ChargePointForm.tsx:72-75 | `OnAddChargePoint` with a request of 0 or less changes nothing, error map included |
| FormModel.AddRejectsOverflow | src/ChargePointForm.tsx:77-84 | `OnAddChargePoint` with a request that would overflow only sets the allocation key to the message naming the current ceiling |
| FormModel.AddAppends | src/ChargePointForm.tsx:86-94 | `OnAddChargePoint` with a fitting request appends exactly that many stations with ids oldLen + i + 1 and the default power, keeps the old entries and the error map, clears the allocation, leaves the roster within the ceiling, and changes no other cell |
| FormModel.AddRaisesPeakLoad | src/ChargePointForm.tsx:86-92 | a fitting `OnAddChargePoint` raises the peak load of `Estimate` (src/Visual.tsx:40) by count × the default power |
| FormModel.AddTruncatesLength | src/ChargePointForm.tsx:88 | `OnAddChargePoint` with a fractional request adds as many stations as its integer part |
| FormModel.ChargePowerEffect | src/ChargePointForm.tsx:115-126 | `OnChargePower`: the error map gains or changes only the station's key, which holds "" on success and the schema's message on failure; success rewrites only the station with that id, failure leaves the roster; other stations' messages are kept; no other cell changes |
| FormModel.PowerEffect | src/ChargePointForm.tsx:131-138 | `OnPower`: the default power changes only to an accepted value, and so stays in 0..11; only its key is written, with the outcome; no other cell changes |
| FormModel.ConsumptionEffect | src/ChargePointForm.tsx:143-150 | `OnConsumption`: consumption takes any accepted value, fractions included, and stays in [1, 100]; only its key is written, with the outcome; no other cell changes |
| FormModel.AmountOfStationsEffect | src/ChargePointForm.tsx:155-165 | `OnAmountOfStations`: acceptance stores the ceiling and clears the allocation; rejection only sets the key; the roster never changes |
| FormModel.CeilingCanFallBelowRoster | src/ChargePointForm.tsx:161-164 | from a valid state with two or more stations, `OnAmountOfStations` with 1 is accepted and leaves more stations than the ceiling |
| FormModel.StationAllocationKeepsInv | src/ChargePointForm.tsx:42-66 | `OnStationAllocation` keeps the invariant |
| FormModel.AddChargePointKeepsInv | src/ChargePointForm.tsx:72-95 | `OnAddChargePoint` keeps the invariant |
| FormModel.ChargePowerKeepsInv | src/ChargePointForm.tsx:115-126 | `OnChargePower` keeps the invariant |
| FormModel.PowerKeepsInv | src/ChargePointForm.tsx:131-138 | `OnPower` keeps the invariant |
| FormModel.ConsumptionKeepsInv | src/ChargePointForm.tsx:143-150 | `OnConsumption` keeps the invariant |
| FormModel.AmountOfStationsKeepsInv | src/ChargePointForm.tsx:155-165 | `OnAmountOfStations` keeps the invariant |
| FormModel.RenderedCharts | src/ChargePointForm.tsx:193-203 | `Rendered` of a submitted form shows charts whose peak load is the total power, within 0..11 per station, and whose daily events are stations × percent / 10 |
| ChargePointForm.EVChargingSimulator.constructor | src/ChargePointForm.tsx:24-36 | the cells start empty roster, multiplier 100, consumption 18, no errors, not submitted, power 11, allocation 0, ceiling 0 |
| ChargePointForm.EVChargingSimulator.HandleStationAllocation | src/ChargePointForm.tsx:42-66 | keeps the invariant and leaves the state of OnStationAllocation |
| ChargePointForm.EVChargingSimulator.HandleAddChargePoint | src/ChargePointForm.tsx:72-95 | keeps the invariant and leaves the state of OnAddChargePoint |
| ChargePointForm.EVChargingSimulator.HandleFormSubmit | src/ChargePointForm.tsx:100-103 | sets submitted and nothing else (`OnFormSubmit`) |
| ChargePointForm.EVChargingSimulator.HandleMultiplier | src/ChargePointForm.tsx:108-110 | stores the multiplier unvalidated and nothing else (`OnMultiplier`) |
| ChargePointForm.EVChargingSimulator.HandleChargePower | src/ChargePointForm.tsx:115-126 | keeps the invariant and leaves the state of OnChargePower |
| ChargePointForm.EVChargingSimulator.HandlePower | src/ChargePointForm.tsx:131-138 | keeps the invariant and leaves the state of OnPower |
| ChargePointForm.EVChargingSimulator.HandleConsumption | src/ChargePointForm.tsx:143-150 | keeps the invariant and leaves the state of OnConsumption |
| ChargePointForm.EVChargingSimulator.HandleAmountOfStations | src/ChargePointForm.tsx:155-165 | keeps the invariant and leaves the state of OnAmountOfStations |
| ChargePointForm.FormWithStations | src/ChargePointForm.tsx:42-165 | setting a ceiling and a default power, allocating `count` stations and adding them leaves a valid form whose roster is stations 1..count at that power and whose allocation is back to 0 |
| ChargePointForm.TwoStationScenario | src/ChargePointForm.tsx:72-95 | ceiling 2: 2 stations are added as [{1, 11}, {2, 11}], and a further request for 3 is refused and leaves the roster |
| ChargePointForm.PowerRefusedScenario | src/ChargePointForm.tsx:115-126 | one station at 5 kW: setting it to 15 kW is refused with "cannot exceed 11 kW" and the roster stays [{1, 5}] |
| ChargePointForm.AllocationBeyondRoomScenario | src/ChargePointForm.tsx:56-84 | with 3 of 5 stations placed, an allocation of 4 is accepted, and the add step refuses it with "Cannot exceed total stations (5)" |
| ChargePointForm.CeilingShrinkScenario | src/ChargePointForm.tsx:155-165 | lowering the ceiling from 3 to 1 keeps all three stations |

## Left out

- Rendering: JSX, cards, charts, sliders, buttons and styling. These are markup over the recharts and clsx libraries.
- The button guards. "Add Stations" is disabled when the allocation is 0, the default power is 0 or the roster is full. "Simulate" is disabled on an empty roster. These are UI guards the handlers do not rely on, so the handler contracts do not assume them.
- `Number(e.target.value)` string conversion, NaN and infinities. zod's type check rejects NaN with a library message that is not part of this model, so inputs are ordinary finite numbers.
- IEEE-754 rounding. `multiplier * 0.01` and the products are doubles in the source (110 * 0.01 is not exactly 1.1); here they are exact reals.
- React's asynchronous state batching and updater functions. Each handler is one atomic step in which the last write to each error key wins.
- `e.preventDefault()` in the submit handler is an event side effect with no state.
- The slider's gradient percentage, which is display arithmetic only.
- Handler arguments that are station ids are integers. A fractional id (which no caller passes) would give a key such as `charge-1.5`, and that spelling is not modelled. JavaScript's exponent notation for integers of 10^21 and above is not modelled either.
- `Array.from` clamps lengths above 2^53 - 1. Any length that gets past the ceiling check is at most 20, so the clamp is not modelled.
