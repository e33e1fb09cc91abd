/**
 * Day 1 of 2019: the fuel a module of a given mass needs, clamped at zero,
 * and the fuel including the fuel for that fuel. Masses are `u32`; neither
 * function can exceed its argument, so neither can overflow.
 */
module Day1 {

  /** `calculate_fuel_required`: a third of the mass rounded down, less two, but never negative. */
  function Fuel(mass: nat): (fuel: nat)
    ensures mass < 9 ==> fuel == 0
    ensures mass >= 6 ==> 3 * (fuel + 2) <= mass < 3 * (fuel + 3)
    ensures mass > 0 ==> fuel < mass
  {
    if mass < 6 then 0 else mass / 3 - 2
  }

  /** `calculate_fuel_required_including_fuel`: fuel for the mass, then fuel for that fuel, until none is needed. */
  function FuelIncludingFuel(mass: nat): (total: nat)
    ensures total >= Fuel(mass)
    ensures mass > 0 ==> total < mass
    decreases mass
  {
    if mass == 0 then 0
    else
      var fuel := Fuel(mass);
      fuel + FuelIncludingFuel(fuel)
  }

  /** Fuel grows with the mass. */
  lemma FuelMonotone(a: nat, b: nat)
    requires a <= b
    ensures Fuel(a) <= Fuel(b)
  {
  }

  /** The recursion adds at most half again: the total stays below half the mass. */
  lemma {:induction false} IncludingFuelBound(mass: nat)
    ensures 2 * FuelIncludingFuel(mass) <= mass
    decreases mass
  {
    if mass > 0 {
      var fuel := Fuel(mass);
      IncludingFuelBound(fuel);
    }
  }

  /** The total grows with the mass. */
  lemma {:induction false} IncludingFuelMonotone(a: nat, b: nat)
    requires a <= b
    ensures FuelIncludingFuel(a) <= FuelIncludingFuel(b)
    decreases b
  {
    if a > 0 {
      FuelMonotone(a, b);
      IncludingFuelMonotone(Fuel(a), Fuel(b));
    }
  }

  lemma FuelExamples()
    ensures Fuel(0) == 0 && Fuel(12) == 2 && Fuel(14) == 2
    ensures Fuel(1969) == 654 && Fuel(100756) == 33583
  {
  }

  lemma IncludingFuelExamples()
    ensures FuelIncludingFuel(14) == 2
    ensures FuelIncludingFuel(1969) == 966
    ensures FuelIncludingFuel(100756) == 50346
  {
    assert FuelIncludingFuel(2) == 0;
    assert FuelIncludingFuel(21) == 5 + FuelIncludingFuel(5) == 5;
    assert FuelIncludingFuel(70) == 21 + 5;
    assert FuelIncludingFuel(216) == 70 + 26;
    assert FuelIncludingFuel(654) == 216 + 96;
    assert FuelIncludingFuel(1969) == 654 + 312;
    assert FuelIncludingFuel(33583) == 11192 + FuelIncludingFuel(11192);
    assert FuelIncludingFuel(11192) == 3728 + FuelIncludingFuel(3728);
    assert FuelIncludingFuel(3728) == 1240 + FuelIncludingFuel(1240);
    assert FuelIncludingFuel(1240) == 411 + FuelIncludingFuel(411);
    assert FuelIncludingFuel(411) == 135 + FuelIncludingFuel(135);
    assert FuelIncludingFuel(135) == 43 + FuelIncludingFuel(43);
    assert FuelIncludingFuel(43) == 12 + FuelIncludingFuel(12);
    assert FuelIncludingFuel(12) == 2;
  }
}
