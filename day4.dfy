/**
 * Day 4 of 2019: password rules over the decimal digits of a number. Both
 * validators walk the digits from right to left, dividing by ten; they are
 * specified here by properties of the digit sequence read left to right.
 */
module Day4 {
  import opened Common

  datatype PasswordValidity = Valid | WrongLength | NotMonotonicallyIncreasing | NoRepeatedDigits

  /** The decimal digits of `n`, most significant first; 0 has none. */
  function Digits(n: nat): (ds: seq<nat>)
    ensures forall i :: 0 <= i < |ds| ==> ds[i] < 10
    ensures n > 0 ==> |ds| > 0 && ds[0] > 0
  {
    if n == 0 then [] else Digits(n / 10) + [n % 10]
  }

  /** Read left to right, no digit is greater than the one after it. */
  predicate NonDecreasing(ds: seq<nat>)
  {
    forall i :: 0 <= i < |ds| - 1 ==> ds[i] <= ds[i + 1]
  }

  /** Some two neighbouring digits are equal. */
  predicate HasAdjacentPair(ds: seq<nat>)
  {
    exists i :: 0 <= i < |ds| - 1 && ds[i] == ds[i + 1]
  }

  /** Part 1, as the puzzle states it; the monotonicity failure wins over the length check. */
  function Validity(password: nat): PasswordValidity
  {
    var ds := Digits(password);
    if !NonDecreasing(ds) then NotMonotonicallyIncreasing
    else if |ds| != 6 then WrongLength
    else if !HasAdjacentPair(ds) then NoRepeatedDigits
    else Valid
  }

  /** `is_valid_password`. */
  method IsValidPassword(password: nat) returns (r: PasswordValidity)
    ensures r == Validity(password)
  {
    var pass := password;
    var numDigits := 0;
    var repeatedDigits := false;
    var prev: Option<nat> := None;
    ghost var seen: seq<nat> := [];
    while pass != 0
      invariant Digits(pass) + seen == Digits(password)
      invariant numDigits == |seen|
      invariant prev.None? <==> seen == []
      invariant prev.Some? ==> prev.value == seen[0]
      invariant NonDecreasing(seen)
      invariant repeatedDigits == HasAdjacentPair(seen)
      decreases pass
    {
      numDigits := numDigits + 1;
      var digit := pass % 10;
      if prev.Some? {
        var p := prev.value;
        if p < digit {
          DescentAt(Digits(pass / 10), digit, seen);
          return NotMonotonicallyIncreasing;
        } else if p == digit {
          repeatedDigits := true;
        }
      }
      PrependPair(digit, seen);
      DigitStep(pass, seen);
      pass := pass / 10;
      prev := Some(digit);
      seen := [digit] + seen;
    }
    assert seen == Digits(password);
    if numDigits != 6 {
      r := WrongLength;
    } else if !repeatedDigits {
      r := NoRepeatedDigits;
    } else {
      r := Valid;
    }
  }

  /** Taking off the last digit moves it to the front of the digits already seen. */
  lemma DigitStep(pass: nat, seen: seq<nat>)
    requires pass != 0
    ensures Digits(pass) + seen == Digits(pass / 10) + ([pass % 10] + seen)
  {
    DigitsLast(pass, Digits(pass / 10));
    ConcatAssoc(Digits(pass / 10), [pass % 10], seen);
  }

  /** The digits of a positive number: those of its quotient by ten, then its last digit. */
  lemma DigitsLast(n: nat, front: seq<nat>)
    requires n > 0 && Digits(n / 10) == front
    ensures Digits(n) == front + [n % 10]
  {
  }

  lemma ConcatAssoc(a: seq<nat>, b: seq<nat>, c: seq<nat>)
    ensures (a + b) + c == a + (b + c)
  {
  }

  /** Prepending a digit to a nonempty suffix: how the two predicates change. */
  lemma PrependPair(d: nat, s: seq<nat>)
    ensures |s| > 0 ==> (NonDecreasing([d] + s) <==> d <= s[0] && NonDecreasing(s))
    ensures |s| > 0 ==> (HasAdjacentPair([d] + s) <==> d == s[0] || HasAdjacentPair(s))
    ensures |s| == 0 ==> NonDecreasing([d] + s) && !HasAdjacentPair([d] + s)
  {
    var t := [d] + s;
    if |s| > 0 {
      assert forall i :: 1 <= i < |t| ==> t[i] == s[i - 1];
      if HasAdjacentPair(s) {
        var i :| 0 <= i < |s| - 1 && s[i] == s[i + 1];
        assert t[i + 1] == t[i + 2];
      }
      if HasAdjacentPair(t) && d != s[0] {
        var i :| 0 <= i < |t| - 1 && t[i] == t[i + 1];
        assert s[i - 1] == s[i];
      }
      if NonDecreasing(s) && d <= s[0] {
        forall i | 0 <= i < |t| - 1 ensures t[i] <= t[i + 1] {
          if i > 0 {
            assert t[i] == s[i - 1] && t[i + 1] == s[i];
          }
        }
      }
      if NonDecreasing(t) {
        assert t[0] <= t[1];
        forall i | 0 <= i < |s| - 1 ensures s[i] <= s[i + 1] {
          assert t[i + 1] <= t[i + 2];
        }
      }
    }
  }

  /** A digit greater than the one to its right makes the whole number non-monotone. */
  lemma DescentAt(front: seq<nat>, d: nat, s: seq<nat>)
    requires |s| > 0 && s[0] < d
    ensures !NonDecreasing(front + [d] + s)
  {
    var t := front + [d] + s;
    assert t[|front|] == d && t[|front| + 1] == s[0];
  }

  // ---------------------------------------------------------------------
  // Part 2: a run of exactly two equal digits
  // ---------------------------------------------------------------------

  /** The length of the run of equal digits at the front. */
  function LeadRun(s: seq<nat>): (n: nat)
    ensures |s| > 0 ==> 1 <= n <= |s|
    ensures |s| == 0 ==> n == 0
  {
    if |s| <= 1 then |s|
    else if s[0] == s[1] then 1 + LeadRun(s[1..])
    else 1
  }

  /** Some maximal run of equal digits has length exactly two. */
  function HasExactPair(s: seq<nat>): bool
    decreases |s|
  {
    if |s| == 0 then false
    else LeadRun(s) == 2 || HasExactPair(s[LeadRun(s)..])
  }

  /** Part 2: as part 1, but the repeated digits must form a run of exactly two. */
  function Validity2(password: nat): PasswordValidity
  {
    var ds := Digits(password);
    if !NonDecreasing(ds) then NotMonotonicallyIncreasing
    else if |ds| != 6 then WrongLength
    else if !HasExactPair(ds) then NoRepeatedDigits
    else Valid
  }

  /** The run being counted, from the right: how many copies of the digit so far. */
  datatype DigitState = NoDigit | One(d: nat) | Two(d: nat) | More(d: nat)

  /** The state that describes the front run of the digits seen so far. */
  function RunState(s: seq<nat>): DigitState
  {
    if |s| == 0 then NoDigit
    else if LeadRun(s) == 1 then One(s[0])
    else if LeadRun(s) == 2 then Two(s[0])
    else More(s[0])
  }

  /** Prepending a digit equal to the front digit lengthens the front run. */
  lemma LeadRunPrepend(d: nat, s: seq<nat>)
    requires |s| > 0
    ensures d == s[0] ==> LeadRun([d] + s) == 1 + LeadRun(s) && ([d] + s)[LeadRun([d] + s)..] == s[LeadRun(s)..]
    ensures d != s[0] ==> LeadRun([d] + s) == 1 && ([d] + s)[1..] == s
  {
    assert ([d] + s)[1..] == s;
  }

  /** The exact pair is in the front run or among the runs after it. */
  lemma ClosedRuns(s: seq<nat>)
    ensures HasExactPair(s) == (RunState(s).Two? || HasExactPair(s[LeadRun(s)..]))
  {
  }

  /** `is_valid_password2`, with its `DigitState` machine. */
  method IsValidPassword2(password: nat) returns (r: PasswordValidity)
    ensures r == Validity2(password)
  {
    var pass := password;
    var numDigits := 0;
    var repeatedDigits := false;
    var prev: DigitState := NoDigit;
    ghost var seen: seq<nat> := [];
    while pass != 0
      invariant Digits(pass) + seen == Digits(password)
      invariant numDigits == |seen|
      invariant prev == RunState(seen)
      invariant NonDecreasing(seen)
      invariant repeatedDigits == HasExactPair(seen[LeadRun(seen)..])
      decreases pass
    {
      numDigits := numDigits + 1;
      var digit := pass % 10;
      var p := match prev
        case One(p) => p
        case Two(p) => p
        case More(p) => p
        case NoDigit => 99;
      if p < digit {
        DescentAt(Digits(pass / 10), digit, seen);
        return NotMonotonicallyIncreasing;
      }
      PrependPair(digit, seen);
      DigitStep(pass, seen);
      pass := pass / 10;
      prev, repeatedDigits := NextState(prev, digit, repeatedDigits, seen);
      seen := [digit] + seen;
    }
    if prev.Two? {
      repeatedDigits := true;
    }
    ClosedRuns(seen);
    assert seen == Digits(password);
    if numDigits != 6 {
      r := WrongLength;
    } else if !repeatedDigits {
      r := NoRepeatedDigits;
    } else {
      r := Valid;
    }
  }

  /** One transition of the machine on the next digit to the left. */
  method NextState(prev: DigitState, digit: nat, repeated: bool, ghost seen: seq<nat>)
    returns (next: DigitState, repeated': bool)
    requires prev == RunState(seen) && repeated == HasExactPair(seen[LeadRun(seen)..])
    ensures next == RunState([digit] + seen)
    ensures repeated' == HasExactPair(([digit] + seen)[LeadRun([digit] + seen)..])
  {
    var t := [digit] + seen;
    if |seen| > 0 {
      LeadRunPrepend(digit, seen);
    }
    repeated' := repeated;
    match prev {
      case NoDigit =>
        next := One(digit);
        assert t[1..] == [];
      case One(p) =>
        next := if p == digit then Two(digit) else One(digit);
      case Two(p) =>
        if p == digit {
          next := More(digit);
        } else {
          repeated' := true;
          next := One(digit);
        }
      case More(p) =>
        next := if p == digit then More(digit) else One(digit);
    }
  }

  /** A run of exactly two is in particular a pair: part 2 passwords pass part 1. */
  lemma {:induction false} ExactPairIsPair(s: seq<nat>)
    requires HasExactPair(s)
    ensures HasAdjacentPair(s)
    decreases |s|
  {
    var r := LeadRun(s);
    if r == 2 {
      assert s[0] == s[1];
    } else {
      ExactPairIsPair(s[r..]);
      var i :| 0 <= i < |s[r..]| - 1 && s[r..][i] == s[r..][i + 1];
      assert s[r + i] == s[r + i + 1];
    }
  }

  lemma Part2ImpliesPart1(password: nat)
    requires Validity2(password) == Valid
    ensures Validity(password) == Valid
  {
    ExactPairIsPair(Digits(password));
  }

  // The unit tests of both parts.

  /** Six digits, each no greater than the next. */
  lemma NonDecreasingSix(ds: seq<nat>)
    requires |ds| == 6 && ds[0] <= ds[1] <= ds[2] <= ds[3] <= ds[4] <= ds[5]
    ensures NonDecreasing(ds)
  {
    forall i | 0 <= i < |ds| - 1 ensures ds[i] <= ds[i + 1] {
      if i == 0 {
      } else if i == 1 {
      } else if i == 2 {
      } else if i == 3 {
      }
    }
  }

  /** Six digits, no two neighbours equal. */
  lemma NoPairSix(ds: seq<nat>)
    requires |ds| == 6 && ds[0] != ds[1] && ds[1] != ds[2] && ds[2] != ds[3] && ds[3] != ds[4] && ds[4] != ds[5]
    ensures !HasAdjacentPair(ds)
  {
    forall i | 0 <= i < |ds| - 1 ensures ds[i] != ds[i + 1] {
      if i == 0 {
      } else if i == 1 {
      } else if i == 2 {
      } else if i == 3 {
      }
    }
  }

  lemma Digits111111()
    ensures Digits(111111) == [1, 1, 1, 1, 1, 1]
  {
    DigitsLast(1, []);
    DigitsLast(11, [1]);
    DigitsLast(111, [1, 1]);
    DigitsLast(1111, [1, 1, 1]);
    DigitsLast(11111, [1, 1, 1, 1]);
    DigitsLast(111111, [1, 1, 1, 1, 1]);
  }

  lemma Digits223450()
    ensures Digits(223450) == [2, 2, 3, 4, 5, 0]
  {
    DigitsLast(2, []);
    DigitsLast(22, [2]);
    DigitsLast(223, [2, 2]);
    DigitsLast(2234, [2, 2, 3]);
    DigitsLast(22345, [2, 2, 3, 4]);
    DigitsLast(223450, [2, 2, 3, 4, 5]);
  }

  lemma Digits123789()
    ensures Digits(123789) == [1, 2, 3, 7, 8, 9]
  {
    DigitsLast(1, []);
    DigitsLast(12, [1]);
    DigitsLast(123, [1, 2]);
    DigitsLast(1237, [1, 2, 3]);
    DigitsLast(12378, [1, 2, 3, 7]);
    DigitsLast(123789, [1, 2, 3, 7, 8]);
  }

  lemma Digits112233()
    ensures Digits(112233) == [1, 1, 2, 2, 3, 3]
  {
    DigitsLast(1, []);
    DigitsLast(11, [1]);
    DigitsLast(112, [1, 1]);
    DigitsLast(1122, [1, 1, 2]);
    DigitsLast(11223, [1, 1, 2, 2]);
    DigitsLast(112233, [1, 1, 2, 2, 3]);
  }

  lemma Digits111122()
    ensures Digits(111122) == [1, 1, 1, 1, 2, 2]
  {
    DigitsLast(1, []);
    DigitsLast(11, [1]);
    DigitsLast(111, [1, 1]);
    DigitsLast(1111, [1, 1, 1]);
    DigitsLast(11112, [1, 1, 1, 1]);
    DigitsLast(111122, [1, 1, 1, 1, 2]);
  }

  lemma Digits123444()
    ensures Digits(123444) == [1, 2, 3, 4, 4, 4]
  {
    DigitsLast(1, []);
    DigitsLast(12, [1]);
    DigitsLast(123, [1, 2]);
    DigitsLast(1234, [1, 2, 3]);
    DigitsLast(12344, [1, 2, 3, 4]);
    DigitsLast(123444, [1, 2, 3, 4, 4]);
  }

  lemma Part1Valid()
    ensures Validity(111111) == Valid
  {
    Digits111111();
    var ds: seq<nat> := [1, 1, 1, 1, 1, 1];
    NonDecreasingSix(ds);
    assert ds[0] == ds[1];
  }

  lemma Part1NotMonotone()
    ensures Validity(223450) == NotMonotonicallyIncreasing
  {
    Digits223450();
    var ds: seq<nat> := [2, 2, 3, 4, 5, 0];
    assert ds[4] > ds[5];
  }

  lemma Part1NoRepeat()
    ensures Validity(123789) == NoRepeatedDigits
  {
    Digits123789();
    var ds: seq<nat> := [1, 2, 3, 7, 8, 9];
    NonDecreasingSix(ds);
    NoPairSix(ds);
  }

  lemma Part2Valid()
    ensures Validity2(112233) == Valid
    ensures Validity2(111122) == Valid
  {
    Digits112233();
    Digits111122();
    NonDecreasingSix([1, 1, 2, 2, 3, 3]);
    NonDecreasingSix([1, 1, 1, 1, 2, 2]);
    ExactPairExamples();
  }

  lemma Part2NoExactPair()
    ensures Validity2(123444) == NoRepeatedDigits
  {
    Digits123444();
    NonDecreasingSix([1, 2, 3, 4, 4, 4]);
    ExactPairExamples();
  }

  lemma ExactPairExamples()
    ensures HasExactPair([1, 1, 2, 2, 3, 3])
    ensures HasExactPair([1, 1, 1, 1, 2, 2])
    ensures !HasExactPair([1, 2, 3, 4, 4, 4])
  {
    var a: seq<nat> := [1, 1, 2, 2, 3, 3];
    assert a[1..] == [1, 2, 2, 3, 3];
    assert LeadRun(a) == 2;
    var b: seq<nat> := [1, 1, 1, 1, 2, 2];
    assert b[1..] == [1, 1, 1, 2, 2] && b[2..] == [1, 1, 2, 2] && b[3..] == [1, 2, 2];
    assert LeadRun(b[3..]) == 1;
    assert LeadRun(b) == 4;
    assert b[4..] == [2, 2] && LeadRun([2, 2]) == 2;
    var c: seq<nat> := [1, 2, 3, 4, 4, 4];
    assert LeadRun(c) == 1 && c[1..] == [2, 3, 4, 4, 4];
    assert LeadRun(c[1..]) == 1 && c[2..] == [3, 4, 4, 4];
    assert LeadRun(c[2..]) == 1 && c[3..] == [4, 4, 4];
    assert c[4..] == [4, 4] && c[5..] == [4];
    assert LeadRun(c[3..]) == 3 && c[6..] == [];
  }
}
