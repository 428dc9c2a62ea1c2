/**
 The input-validation rules of the simulator (src/utilities/ZodSchemas.ts).

 Each schema is a chain `z.number().int(..).min(..).max(..)`. A chain is
 modelled as a sequence of checks; `safeParse` reports every failing check
 in chain order, and the form only ever shows the first one
 (`result.error.errors[0].message`), so `SafeParse` returns exactly that
 message. Inputs are ordinary (finite, non-NaN) numbers, modelled as reals.
 */
module Validation {

  /** The three fields that go through a schema. */
  datatype Kind = StationPower | StationCount | Consumption

  /** One link of a zod chain: `.int(message)`, `.min(bound, message)`, `.max(bound, message)`. */
  datatype Check =
    | IsInt(message: string)
    | Min(bound: real, message: string)
    | Max(bound: real, message: string)

  /** The outcome of `safeParse`, reduced to what the form reads from it. */
  datatype Result = Accepted(value: real) | Rejected(message: string)

  /** `Number.isInteger` on a finite number. */
  predicate IsInteger(v: real) {
    v.Floor as real == v
  }

  /** Whether a value satisfies one check; zod's `min` and `max` are inclusive. */
  predicate Passes(c: Check, v: real) {
    match c
    case IsInt(_) => IsInteger(v)
    case Min(b, _) => b <= v
    case Max(b, _) => v <= b
  }

  /** The first failing check of a chain decides the message. */
  function SafeParse(checks: seq<Check>, v: real): (r: Result)
    ensures r.Accepted? <==> forall i :: 0 <= i < |checks| ==> Passes(checks[i], v)
    ensures r.Accepted? ==> r.value == v
    ensures r.Rejected? ==>
      exists i :: 0 <= i < |checks| && !Passes(checks[i], v) && r.message == checks[i].message &&
                  forall j :: 0 <= j < i ==> Passes(checks[j], v)
  {
    if checks == [] then Accepted(v)
    else if !Passes(checks[0], v) then Rejected(checks[0].message)
    else
      var r := SafeParse(checks[1..], v);
      assert forall i :: 1 <= i < |checks| ==> checks[i] == checks[1..][i - 1];
      r
  }

  const PowerNotInteger: string := "Charging power must be an integer"
  const PowerNegative: string := "Charging power cannot be negative"
  const PowerTooHigh: string := "cannot exceed 11 kW"

  const CountNotInteger: string := "Number of charge points must be an integer"
  const CountTooLow: string := "There must be at least one charge point"
  // The leading space is in the source's message.
  const CountTooHigh: string := " cannot exceed 20"

  const ConsumptionTooLow: string := "Car consumption must be at least 1 kWh"
  const ConsumptionTooHigh: string := "Car consumption cannot exceed 100 kWh"

  /** `chargePowerSchema`, `numberOfStationsSchema` and `consumptionSchema`, link by link. */
  function Schema(kind: Kind): seq<Check> {
    match kind
    case StationPower => [IsInt(PowerNotInteger), Min(0.0, PowerNegative), Max(11.0, PowerTooHigh)]
    case StationCount => [IsInt(CountNotInteger), Min(1.0, CountTooLow), Max(20.0, CountTooHigh)]
    case Consumption => [Min(1.0, ConsumptionTooLow), Max(100.0, ConsumptionTooHigh)]
  }

  /** The domain each schema admits, stated independently of the chains. */
  predicate InDomain(kind: Kind, v: real) {
    match kind
    case StationPower => IsInteger(v) && 0.0 <= v <= 11.0
    case StationCount => IsInteger(v) && 1.0 <= v <= 20.0
    case Consumption => 1.0 <= v <= 100.0
  }

  /** `schema.safeParse(v)`: accepts v unchanged exactly on the schema's domain. */
  function Validate(kind: Kind, v: real): (r: Result)
    ensures r.Accepted? <==> InDomain(kind, v)
    ensures r.Accepted? ==> r.value == v
    ensures r.Rejected? ==> r.message != ""
  {
    var checks := Schema(kind);
    var r := SafeParse(checks, v);
    assert r.Accepted? <==> Passes(checks[0], v) && Passes(checks[1], v) && (|checks| == 3 ==> Passes(checks[2], v));
    r
  }

  /** Station power: the integer check comes first, then the lower bound, then the upper one. */
  lemma ChargePowerVerdict(v: real)
    ensures Validate(StationPower, v) ==
      if !IsInteger(v) then Rejected(PowerNotInteger)
      else if v < 0.0 then Rejected(PowerNegative)
      else if v > 11.0 then Rejected(PowerTooHigh)
      else Accepted(v)
  {
  }

  /** Station count: integer check, then at least 1, then at most 20. */
  lemma StationCountVerdict(v: real)
    ensures Validate(StationCount, v) ==
      if !IsInteger(v) then Rejected(CountNotInteger)
      else if v < 1.0 then Rejected(CountTooLow)
      else if v > 20.0 then Rejected(CountTooHigh)
      else Accepted(v)
  {
  }

  /** Consumption has no integer check: any number in [1, 100] passes, fractions included. */
  lemma ConsumptionVerdict(v: real)
    ensures Validate(Consumption, v) ==
      if v < 1.0 then Rejected(ConsumptionTooLow)
      else if v > 100.0 then Rejected(ConsumptionTooHigh)
      else Accepted(v)
  {
  }

  /** A non-integer power is reported as such even when it is also out of range. */
  lemma NonIntegerPowerMessage(v: real)
    requires !IsInteger(v)
    ensures Validate(StationPower, v) == Rejected(PowerNotInteger)
  {
    ChargePowerVerdict(v);
  }

  /** The same precedence for station counts. */
  lemma NonIntegerCountMessage(v: real)
    requires !IsInteger(v)
    ensures Validate(StationCount, v) == Rejected(CountNotInteger)
  {
    StationCountVerdict(v);
  }
}
