/**
 The roster of charging stations (`{ id: number; power: number }[]`,
 src/types/formTypes.ts) and the two ways the form rewrites it: appending a
 batch built by `Array.from` and editing one power through `map`.
 */
module ChargePoints {

  datatype Station = Station(id: int, power: int)

  /** Every station's power is a legal station power, 0..11 kW. */
  predicate PowersInRange(cps: seq<Station>) {
    forall k :: 0 <= k < |cps| ==> 0 <= cps[k].power <= 11
  }

  /** The ids the form hands out: the station at position k has id k + 1. */
  predicate IdsArePositions(cps: seq<Station>) {
    forall k :: 0 <= k < |cps| ==> cps[k].id == k + 1
  }

  /** `Array.from({ length: count }, (_, index) => ({ id: start + index + 1, power }))`. */
  function NewStations(start: nat, count: nat, power: int): seq<Station> {
    seq(count, index requires 0 <= index < count => Station(start + index + 1, power))
  }

  /** `cps.map(item => item.id === id ? { ...item, power } : item)`. */
  function WithPower(cps: seq<Station>, id: int, power: int): seq<Station> {
    seq(|cps|, k requires 0 <= k < |cps| => if cps[k].id == id then cps[k].(power := power) else cps[k])
  }

  /** Total nameplate power of the roster: the reference definition of the peak load. */
  function SumPowers(cps: seq<Station>): int {
    if cps == [] then 0 else cps[0].power + SumPowers(cps[1..])
  }

  /** Appending a batch numbered from the current length keeps the numbering. */
  lemma AppendKeepsIds(cps: seq<Station>, count: nat, power: int)
    requires IdsArePositions(cps)
    ensures IdsArePositions(cps + NewStations(|cps|, count, power))
  {
  }

  /** A batch made with a legal power keeps every power legal. */
  lemma AppendKeepsPowers(cps: seq<Station>, start: nat, count: nat, power: int)
    requires PowersInRange(cps) && 0 <= power <= 11
    ensures PowersInRange(cps + NewStations(start, count, power))
  {
  }

  /**
   On a roster numbered by position, editing the power of `id` rewrites
   exactly the station at position id - 1, and nothing when no station has
   that id.
   */
  lemma WithPowerAt(cps: seq<Station>, id: int, power: int)
    requires IdsArePositions(cps)
    ensures WithPower(cps, id, power) ==
      if 1 <= id <= |cps| then cps[id - 1 := Station(id, power)] else cps
  {
  }

  /** Editing a power never renumbers ids nor changes the length. */
  lemma WithPowerKeepsIds(cps: seq<Station>, id: int, power: int)
    ensures |WithPower(cps, id, power)| == |cps|
    ensures forall k :: 0 <= k < |cps| ==> WithPower(cps, id, power)[k].id == cps[k].id
    ensures IdsArePositions(cps) ==> IdsArePositions(WithPower(cps, id, power))
  {
  }

  /** Editing a power to a legal value keeps every power legal. */
  lemma WithPowerKeepsPowers(cps: seq<Station>, id: int, power: int)
    requires PowersInRange(cps) && 0 <= power <= 11
    ensures PowersInRange(WithPower(cps, id, power))
  {
  }

  /** The sum of a concatenation is the sum of the parts. */
  lemma {:induction false} SumPowersAppend(a: seq<Station>, b: seq<Station>)
    ensures SumPowers(a + b) == SumPowers(a) + SumPowers(b)
    decreases |a|
  {
    if a == [] {
      assert a + b == b;
    } else {
      assert (a + b)[1..] == a[1..] + b;
      SumPowersAppend(a[1..], b);
    }
  }

  /** A batch of `count` stations at one power totals `count * power`. */
  lemma {:induction false} NewStationsSum(start: nat, count: nat, power: int)
    ensures SumPowers(NewStations(start, count, power)) == count * power
    decreases count
  {
    if count > 0 {
      assert NewStations(start, count, power)[1..] == NewStations(start + 1, count - 1, power);
      NewStationsSum(start + 1, count - 1, power);
    }
  }

  /** Appending a batch raises the total power by the batch's size times its power. */
  lemma AppendAddsPower(cps: seq<Station>, count: nat, power: int)
    ensures SumPowers(cps + NewStations(|cps|, count, power)) == SumPowers(cps) + count * power
  {
    SumPowersAppend(cps, NewStations(|cps|, count, power));
    NewStationsSum(|cps|, count, power);
  }

  /** With legal powers the total lies between 0 and 11 kW per station. */
  lemma {:induction false} SumPowersBounds(cps: seq<Station>)
    requires PowersInRange(cps)
    ensures 0 <= SumPowers(cps) <= 11 * |cps|
    decreases |cps|
  {
    if cps != [] {
      assert PowersInRange(cps[1..]) by {
        forall k | 0 <= k < |cps| - 1 ensures 0 <= cps[1..][k].power <= 11 {
          assert cps[1..][k] == cps[k + 1];
        }
      }
      SumPowersBounds(cps[1..]);
    }
  }
}
