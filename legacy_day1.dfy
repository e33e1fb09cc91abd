/**
 * The first version of day 1: `i32` arithmetic with Rust's truncating
 * division and no clamping, and a running total over the masses in input
 * order. In a debug build an `i32` overflow of the total panics.
 */
module LegacyDay1 {
  import opened Common

  /** `calculate_fuel_required`: `mass / 3 - 2`, rounding toward zero, possibly negative. */
  function Fuel(mass: int): (fuel: int)
    ensures mass >= 0 ==> 3 * (fuel + 2) <= mass < 3 * (fuel + 3)
    ensures -3 < mass <= 0 ==> fuel == -2
    ensures I32_MIN <= mass <= I32_MAX ==> I32_MIN <= fuel <= I32_MAX
  {
    TDiv(mass, 3) - 2
  }

  /** Without the clamp, small masses need negative fuel. */
  lemma SmallMasses(mass: int)
    requires 0 <= mass < 6
    ensures Fuel(mass) == if mass < 3 then -2 else -1
  {
  }

  /** The sum of the fuel over the masses, in input order. */
  function Total(masses: seq<int>): int
  {
    if |masses| == 0 then 0 else Total(masses[..|masses| - 1]) + Fuel(masses[|masses| - 1])
  }

  /** Every running total, after each mass, stays within `i32`. */
  predicate TotalsFit(masses: seq<int>)
  {
    forall k :: 1 <= k <= |masses| ==> I32_MIN <= Total(masses[..k]) <= I32_MAX
  }

  /** The total splits over a concatenation, so it does not depend on how the input is cut. */
  lemma {:induction false} TotalAppend(a: seq<int>, b: seq<int>)
    ensures Total(a + b) == Total(a) + Total(b)
    decreases |b|
  {
    if |b| == 0 {
      assert a + b == a;
    } else {
      var b' := b[..|b| - 1];
      assert (a + b)[..|a + b| - 1] == a + b';
      TotalAppend(a, b');
    }
  }

  /** The total is the same in any order of the masses. */
  lemma {:induction false} TotalSwap(a: seq<int>, x: int, y: int, b: seq<int>)
    ensures Total(a + [x, y] + b) == Total(a + [y, x] + b)
  {
    TotalAppend(a + [x, y], b);
    TotalAppend(a + [y, x], b);
    TotalAppend(a, [x, y]);
    TotalAppend(a, [y, x]);
    assert [x, y][..1] == [x] && [y, x][..1] == [y];
  }

  /** The running totals of a longer prefix fit when the shorter ones and the new one do. */
  lemma FitsExtend(masses: seq<int>, i: nat)
    requires i < |masses| && TotalsFit(masses[..i])
    requires I32_MIN <= Total(masses[..i + 1]) <= I32_MAX
    ensures TotalsFit(masses[..i + 1])
  {
    var t := masses[..i + 1];
    forall k | 1 <= k <= i + 1
      ensures I32_MIN <= Total(t[..k]) <= I32_MAX
    {
      assert t[..k] == masses[..k];
      if k <= i {
        assert masses[..i][..k] == masses[..k];
      }
    }
  }

  /**
   * The summation in `main`: `None` when the running total leaves `i32`,
   * where a debug build panics.
   */
  method TotalFuel(masses: seq<int>) returns (total: Option<int>)
    ensures total == if TotalsFit(masses) then Some(Total(masses)) else None
  {
    var sum := 0;
    var i := 0;
    while i < |masses|
      invariant 0 <= i <= |masses|
      invariant sum == Total(masses[..i])
      invariant TotalsFit(masses[..i])
    {
      assert masses[..i + 1][..i] == masses[..i];
      sum := sum + Fuel(masses[i]);
      if sum < I32_MIN || sum > I32_MAX {
        assert !(I32_MIN <= Total(masses[..i + 1]) <= I32_MAX);
        return None;
      }
      FitsExtend(masses, i);
      i := i + 1;
    }
    assert masses[..i] == masses;
    total := Some(sum);
  }

  lemma Examples()
    ensures Fuel(12) == 2 && Fuel(14) == 2 && Fuel(1969) == 654 && Fuel(100756) == 33583
    ensures Total([12, 14]) == 4
  {
    assert [12, 14][..1] == [12];
  }
}
