/**
 * The first version of the day 4 password check. Its loop is the same as
 * part 1 of the 2019 rewrite, so its specification is the 2019 one, read
 * through this version's own result names.
 */
module LegacyDay4 {
  import opened Common
  import Day4

  datatype PasswordValidity = Valid | WrongLength | NotMonotonicallyIncrasing | NoRepeatedDigits

  /** The digit rules of the rewrite, with this version's result names. */
  function Validity(password: nat): (r: PasswordValidity)
    ensures r == NotMonotonicallyIncrasing <==> !Day4.NonDecreasing(Day4.Digits(password))
    ensures r == Valid <==> Day4.Validity(password) == Day4.Valid
  {
    match Day4.Validity(password)
    case Valid => Valid
    case WrongLength => WrongLength
    case NotMonotonicallyIncreasing => NotMonotonicallyIncrasing
    case NoRepeatedDigits => NoRepeatedDigits
  }

  /** `is_valid_password`. */
  method IsValidPassword(password: nat) returns (r: PasswordValidity)
    ensures r == Validity(password)
  {
    var pass := password;
    var numDigits := 0;
    var repeatedDigits := false;
    var prev: Option<nat> := None;
    ghost var seen: seq<nat> := [];
    while pass != 0
      invariant Day4.Digits(pass) + seen == Day4.Digits(password)
      invariant numDigits == |seen|
      invariant prev.None? <==> seen == []
      invariant prev.Some? ==> prev.value == seen[0]
      invariant Day4.NonDecreasing(seen)
      invariant repeatedDigits == Day4.HasAdjacentPair(seen)
      decreases pass
    {
      numDigits := numDigits + 1;
      var digit := pass % 10;
      if prev.Some? {
        var p := prev.value;
        if p < digit {
          Day4.DescentAt(Day4.Digits(pass / 10), digit, seen);
          return NotMonotonicallyIncrasing;
        } else if p == digit {
          repeatedDigits := true;
        }
      }
      Day4.PrependPair(digit, seen);
      Day4.DigitStep(pass, seen);
      pass := pass / 10;
      prev := Some(digit);
      seen := [digit] + seen;
    }
    assert seen == Day4.Digits(password);
    if numDigits != 6 {
      r := WrongLength;
    } else if !repeatedDigits {
      r := NoRepeatedDigits;
    } else {
      r := Valid;
    }
  }

  /** A number that is not six digits long, such as 0, is never valid. */
  lemma OnlySixDigits(password: nat)
    requires |Day4.Digits(password)| != 6
    ensures Validity(password) != Valid
  {
  }

  lemma Examples()
    ensures Validity(111111) == Valid
    ensures Validity(223450) == NotMonotonicallyIncrasing
    ensures Validity(123789) == NoRepeatedDigits
  {
    Day4.Part1Valid();
    Day4.Part1NotMonotone();
    Day4.Part1NoRepeat();
  }
}
