/**
 * Day 16 of 2019: the Flawed Frequency Transmission. Each phase replaces the
 * digit at position `i` by the last digit of the absolute value of a sum:
 * every digit from `offset` on times the pattern 0, 1, 0, -1, each element
 * repeated `i + 1` times, the very first element skipped. Digits before
 * `offset` become 0.
 */
module Day16 {
  import opened Common

  // ---------------------------------------------------------------------
  // Parsing
  // ---------------------------------------------------------------------

  /** `parse_input`: each character parsed on its own as an `i32`; `None` where the source panics. */
  function ParseInput(input: string): (r: Option<seq<int>>)
    ensures r.Some? ==> |r.value| == |input|
  {
    if |input| == 0 then Some([])
    else
      match ParseI32([input[0]])
      case None => None
      case Some(d) =>
        match ParseInput(input[1..])
        case None => None
        case Some(rest) => Some([d] + rest)
  }

  /** A single character parses exactly when it is a digit, to its value. */
  lemma ParseOneChar(c: char)
    ensures ParseI32([c]) == if IsDigit(c) then Some(DigitValue(c) as int) else None
  {
    var s := [c];
    if IsDigit(c) {
      assert s[..0] == [];
      assert DigitsValue(s) == DigitValue(c);
    } else if c == '+' || c == '-' {
      assert s[1..] == [];
    } else {
      assert !AllDigits(s);
    }
  }

  /** The input parses exactly when every character is a digit, each to its value. */
  lemma {:induction false} ParseInputDigits(input: string)
    ensures ParseInput(input).Some? <==> AllDigits(input)
    ensures ParseInput(input).Some? ==>
      forall i :: 0 <= i < |input| ==> ParseInput(input).value[i] == DigitValue(input[i]) as int
    decreases |input|
  {
    if |input| > 0 {
      ParseOneChar(input[0]);
      ParseInputDigits(input[1..]);
      if AllDigits(input) {
        assert AllDigits(input[1..]) by {
          forall i | 0 <= i < |input[1..]|
            ensures IsDigit(input[1..][i])
          {
            assert input[1..][i] == input[i + 1];
          }
        }
      }
      if ParseInput(input).Some? {
        forall i | 0 <= i < |input|
          ensures ParseInput(input).value[i] == DigitValue(input[i]) as int && IsDigit(input[i])
        {
          if i > 0 {
            assert input[i] == input[1..][i - 1];
          }
        }
      }
    }
  }

  // ---------------------------------------------------------------------
  // The pattern
  // ---------------------------------------------------------------------

  const Base: seq<int> := [0, 1, 0, -1]

  lemma QuotientBelow(a: nat, length: nat, m: nat)
    requires length > 0 && a < m * length
    ensures a / length < m
  {
    var q := a / length;
    assert a == length * q + a % length;
  }

  /**
   * The pattern value the iterator gives at index `k` of the sequence for a
   * position with `length = position + 1`: the base cycle positions repeat
   * every `4 * length` indexes.
   */
  function Pattern(length: nat, k: nat): int
    requires length > 0
  {
    var r := k % (4 * length);
    QuotientBelow(r, length, 4);
    Base[r / length]
  }

  /** The pattern as the puzzle defines it: base element `(k / length) % 4`. */
  lemma PatternIsRepeatedBase(length: nat, k: nat)
    requires length > 0
    ensures Pattern(length, k) == Base[(k / length) % 4]
  {
    var m := 4 * length;
    var q, r := k / m, k % m;
    QuotientBelow(r, length, 4);
    var a, b := r / length, r % length;
    assert r == length * a + b;
    assert k == m * q + r;
    assert k == length * (4 * q + a) + b;
    DivUnique(k, length, 4 * q + a, b);
    DivUnique(4 * q + a, 4, q, a);
  }

  /** Indexes congruent modulo a full cycle give the same value. */
  lemma PatternPeriodic(length: nat, a: nat, b: nat)
    requires length > 0 && a % (4 * length) == b % (4 * length)
    ensures Pattern(length, a) == Pattern(length, b)
  {
  }

  /** Congruence is kept by counting on. */
  lemma ModStep(a: nat, b: nat, m: nat)
    requires m > 0 && a % m == b % m
    ensures (a + 1) % m == (b + 1) % m
  {
    var r := a % m;
    assert a == m * (a / m) + r && b == m * (b / m) + r;
    if r + 1 < m {
      DivUnique(a + 1, m, a / m, r + 1);
      DivUnique(b + 1, m, b / m, r + 1);
    } else {
      DivUnique(a + 1, m, a / m + 1, 0);
      DivUnique(b + 1, m, b / m + 1, 0);
    }
  }

  /** At quotient 4 the index is the last of the cycle, whose value is 0, and 1 is the index after it. */
  lemma CycleRestarts(k: nat, length: nat)
    requires length > 0 && 1 <= k <= 4 * length && k / length == 4
    ensures Pattern(length, k) == 0 && 1 % (4 * length) == (k + 1) % (4 * length)
  {
    assert k == 4 * length;
    DivUnique(k, 4 * length, 1, 0);
    DivUnique(k + 1, 4 * length, 1, 1);
    DivUnique(1, 4 * length, 0, 1);
  }

  /** Below quotient 4 the index is inside the cycle and its value is the base element. */
  lemma CycleContinues(k: nat, length: nat)
    requires length > 0 && 1 <= k <= 4 * length && k / length < 4
    ensures k + 1 <= 4 * length && Pattern(length, k) == Base[k / length]
  {
    if k == 4 * length {
      DivUnique(k, length, 4, 0);
    }
    DivUnique(k, 4 * length, 0, k);
  }

  /** `PatternIterator`: `ndx` counts through one cycle of `4 * length` indexes. */
  class PatternIterator {
    var ndx: nat
    var length: nat

    /** `new(position, offset)`: the cycle for `position`, starting `offset + 1` elements in. */
    constructor New(position: nat, offset: nat)
      ensures ndx == offset + 1 && length == position + 1
    {
      ndx := offset + 1;
      length := position + 1;
    }

    /** The indexes from which the iterator follows the pattern. */
    predicate InCycle()
      reads this
    {
      length > 0 && 1 <= ndx <= 4 * length
    }

    /**
     * `next`: the base element for the current index, which moves on by one;
     * at index `4 * length` the cycle starts again at index 1. A quotient
     * above 4 panics.
     */
    method Next() returns (r: int)
      requires length > 0 && ndx / length <= 4
      modifies this
      ensures length == old(length)
      ensures old(ndx) / length == 4 ==> r == 0 && ndx == 1
      ensures old(ndx) / length < 4 ==> r == Base[old(ndx) / length] && ndx == old(ndx) + 1
      ensures old(InCycle()) ==>
        InCycle() && r == Pattern(length, old(ndx)) && ndx % (4 * length) == (old(ndx) + 1) % (4 * length)
    {
      var k, len := ndx, length;
      var q := k / len;
      if q == 4 {
        if 1 <= k <= 4 * len {
          CycleRestarts(k, len);
        }
        ndx := 1;
        return 0;
      }
      if 1 <= k <= 4 * len {
        CycleContinues(k, len);
      }
      r := Base[q];
      ndx := k + 1;
    }

    /** `take(n).collect()`: the next `n` pattern values. */
    method Take(n: nat) returns (s: seq<int>)
      requires InCycle()
      modifies this
      ensures |s| == n && InCycle() && length == old(length)
      ensures forall i :: 0 <= i < n ==> s[i] == Pattern(length, old(ndx) + i)
    {
      s := [];
      var i := 0;
      while i < n
        invariant 0 <= i <= n && InCycle() && length == old(length)
        invariant ndx % (4 * length) == (old(ndx) + i) % (4 * length)
        invariant |s| == i && forall j :: 0 <= j < i ==> s[j] == Pattern(length, old(ndx) + j)
      {
        QuotientBelow(ndx, length, 5);
        ghost var k := ndx;
        var v := Next();
        PatternPeriodic(length, k, old(ndx) + i);
        ModStep(k, old(ndx) + i, 4 * length);
        s := s + [v];
        i := i + 1;
      }
    }
  }

  /** The three pattern tests. */
  lemma PatternExamples()
    ensures forall i :: 0 <= i < 7 ==> Pattern(1, 1 + i) == [1, 0, -1, 0, 1, 0, -1][i]
    ensures forall i :: 0 <= i < 7 ==> Pattern(2, 1 + i) == [0, 1, 1, 0, 0, -1, -1][i]
    ensures forall i :: 0 <= i < 5 ==> Pattern(1, 3 + i) == [-1, 0, 1, 0, -1][i]
  {
    forall i | 0 <= i < 7
      ensures Pattern(1, 1 + i) == [1, 0, -1, 0, 1, 0, -1][i]
      ensures Pattern(2, 1 + i) == [0, 1, 1, 0, 0, -1, -1][i]
    {
      if i == 0 {} else if i == 1 {} else if i == 2 {} else if i == 3 {}
      else if i == 4 {} else if i == 5 {} else {}
    }
    forall i | 0 <= i < 5
      ensures Pattern(1, 3 + i) == [-1, 0, 1, 0, -1][i]
    {
      if i == 0 {} else if i == 1 {} else if i == 2 {} else if i == 3 {} else {}
    }
  }

  // ---------------------------------------------------------------------
  // One phase, and the transform
  // ---------------------------------------------------------------------

  /** The sum of the first `n` products of the digits from `offset` on with the pattern for `ndx`. */
  function Dot(ret: seq<int>, offset: nat, ndx: nat, n: nat): int
    requires offset + n <= |ret|
  {
    if n == 0 then 0
    else Dot(ret, offset, ndx, n - 1) + ret[offset + n - 1] * Pattern(ndx + 1, offset + n)
  }

  /** The new digit at `ndx`: the last digit of the absolute value of the whole sum. */
  function Digit(ret: seq<int>, offset: nat, ndx: nat): (d: int)
    requires offset <= |ret|
    ensures 0 <= d <= 9
  {
    Abs(Dot(ret, offset, ndx, |ret| - offset)) % 10
  }

  /** One phase: zeros before `offset`, the new digits from there on. */
  function Phase(ret: seq<int>, offset: nat): (p: seq<int>)
    ensures |p| == |ret|
    ensures forall i :: 0 <= i < |ret| ==> p[i] == if i < offset then 0 else Digit(ret, offset, i)
  {
    seq(|ret|, i requires 0 <= i < |ret| => if i < offset then 0 else Digit(ret, offset, i))
  }

  /**
   * The sum as the puzzle states it for position `i`: the first `n` digits
   * from `offset` on, digit `j` times base element `((j + 1) / (i + 1)) % 4`.
   */
  function PuzzleSum(ret: seq<int>, offset: nat, i: nat, n: nat): int
    requires offset + n <= |ret|
  {
    if n == 0 then 0
    else PuzzleSum(ret, offset, i, n - 1) + ret[offset + n - 1] * Base[((offset + n) / (i + 1)) % 4]
  }

  lemma {:induction false} DotIsPuzzleSum(ret: seq<int>, offset: nat, i: nat, n: nat)
    requires offset + n <= |ret|
    ensures Dot(ret, offset, i, n) == PuzzleSum(ret, offset, i, n)
  {
    if n > 0 {
      DotIsPuzzleSum(ret, offset, i, n - 1);
      PatternIsRepeatedBase(i + 1, offset + n);
    }
  }

  /**
   * A phase is the puzzle's transform: 0 before the offset, and from there
   * the last digit of the absolute value of the digits from the offset on
   * times the repeated base pattern with its first element skipped.
   */
  lemma PhaseIsPuzzleDefinition(ret: seq<int>, offset: nat, i: nat)
    requires i < |ret|
    ensures Phase(ret, offset)[i] ==
      if i < offset then 0 else Abs(PuzzleSum(ret, offset, i, |ret| - offset)) % 10
  {
    if offset <= i {
      DotIsPuzzleSum(ret, offset, i, |ret| - offset);
    }
  }

  /** The signal after `cycles` phases. */
  function Fft(input: seq<int>, offset: nat, cycles: nat): seq<int>
  {
    if cycles == 0 then input else Phase(Fft(input, offset, cycles - 1), offset)
  }

  /** The transform keeps the length; after a phase every entry is a digit and those before `offset` are 0. */
  lemma {:induction false} FftShape(input: seq<int>, offset: nat, cycles: nat)
    ensures |Fft(input, offset, cycles)| == |input|
    ensures cycles > 0 ==> forall i :: 0 <= i < |input| ==>
      0 <= Fft(input, offset, cycles)[i] <= 9 && (i < offset ==> Fft(input, offset, cycles)[i] == 0)
  {
    if cycles > 0 {
      FftShape(input, offset, cycles - 1);
    }
  }

  /** The sum of `ret[a..b]`. */
  function RangeSum(ret: seq<int>, a: nat, b: nat): int
    requires a <= b <= |ret|
    decreases b - a
  {
    if a == b then 0 else RangeSum(ret, a, b - 1) + ret[b - 1]
  }

  /**
   * In the back half of the signal the pattern is 0 up to the position and 1
   * from there to the end, so a new digit is the last digit of a suffix sum:
   * the observation that makes part 2 tractable.
   */
  lemma {:induction false} DotBackHalf(ret: seq<int>, offset: nat, ndx: nat, n: nat)
    requires offset + n <= |ret| <= 2 * ndx + 1
    ensures Dot(ret, offset, ndx, n) == if offset + n <= ndx then 0 else RangeSum(ret, Max(offset, ndx), offset + n)
  {
    if n > 0 {
      DotBackHalf(ret, offset, ndx, n - 1);
      BackHalfPattern(ndx + 1, offset + n);
    }
  }

  /** Below twice the length, the pattern is 0 before index `length` and 1 from it on. */
  lemma BackHalfPattern(length: nat, j: nat)
    requires 1 <= j < 2 * length
    ensures Pattern(length, j) == if j < length then 0 else 1
  {
    DivUnique(j, 4 * length, 0, j);
    if j < length {
      DivUnique(j, length, 0, j);
    } else {
      DivUnique(j, length, 1, j - length);
    }
  }

  function Max(a: nat, b: nat): nat
  {
    if a < b then b else a
  }

  lemma BackHalfDigit(ret: seq<int>, offset: nat, ndx: nat)
    requires offset <= ndx < |ret| <= 2 * ndx + 1
    ensures Digit(ret, offset, ndx) == Abs(RangeSum(ret, ndx, |ret|)) % 10
  {
    DotBackHalf(ret, offset, ndx, |ret| - offset);
  }

  /** The loop of `compute_fft` over one phase's sum: the pattern iterator zipped with the digits from `offset` on. */
  method PatternDot(ret: seq<int>, offset: nat, ndx: nat) returns (num: int)
    requires offset <= ndx < |ret|
    ensures num == Dot(ret, offset, ndx, |ret| - offset)
  {
    var it := new PatternIterator.New(ndx, offset);
    num := 0;
    var j := 0;
    while offset + j < |ret|
      invariant offset + j <= |ret|
      invariant it.length == ndx + 1 && it.InCycle()
      invariant it.ndx % (4 * it.length) == (offset + 1 + j) % (4 * it.length)
      invariant num == Dot(ret, offset, ndx, j)
      decreases |ret| - j
    {
      QuotientBelow(it.ndx, it.length, 5);
      ghost var k := it.ndx;
      var p := it.Next();
      PatternPeriodic(it.length, k, offset + 1 + j);
      ModStep(k, offset + 1 + j, 4 * it.length);
      num := num + ret[offset + j] * p;
      j := j + 1;
    }
  }

  /** `compute_fft`. */
  method ComputeFft(input: seq<int>, offset: nat, cycles: nat) returns (ret: seq<int>)
    ensures ret == Fft(input, offset, cycles)
  {
    ret := input;
    var x := 1;
    while x <= cycles
      invariant 1 <= x <= cycles + 1
      invariant ret == Fft(input, offset, x - 1)
    {
      var phase := new int[|ret|](_ => 0);
      var ndx := offset;
      while ndx < phase.Length
        invariant offset <= ndx
        invariant forall i :: 0 <= i < phase.Length ==>
          phase[i] == if i < offset || i >= ndx then 0 else Digit(ret, offset, i)
      {
        var num := PatternDot(ret, offset, ndx);
        num := Abs(num) % 10;
        phase[ndx] := num;
        ndx := ndx + 1;
      }
      assert phase[..] == Phase(ret, offset);
      ret := phase[..];
      x := x + 1;
    }
  }

  /** `part_1`: the first eight digits after a hundred phases; `None` where parsing panics. */
  method Part1(input: string) returns (r: Option<string>)
    ensures r.Some? <==> AllDigits(input)
    ensures r.Some? ==> |r.value| == if |input| < 8 then |input| else 8
    ensures r.Some? ==> ParseInput(input).Some? && forall i :: 0 <= i < |r.value| ==>
      var fft := Fft(ParseInput(input).value, 0, 100);
      i < |fft| && 0 <= fft[i] <= 9 && r.value[i] == DigitChar(fft[i])
  {
    ParseInputDigits(input);
    var nums := ParseInput(input);
    if nums.None? {
      return None;
    }
    var fft := ComputeFft(nums.value, 0, 100);
    FftShape(nums.value, 0, 100);
    var s := "";
    var i := 0;
    while i < |fft| && i < 8
      invariant 0 <= i <= |fft| && i <= 8
      invariant |s| == i && forall j :: 0 <= j < i ==> s[j] == DigitChar(fft[j])
    {
      assert Show(fft[i]) == [DigitChar(fft[i])];
      s := s + Show(fft[i]);
      i := i + 1;
    }
    r := Some(s);
  }

  // ---------------------------------------------------------------------
  // The transform tests
  // ---------------------------------------------------------------------

  lemma DigitsOfSample(s: string)
    requires s == "12345678"
    ensures ParseInput(s) == Some([1, 2, 3, 4, 5, 6, 7, 8])
  {
    assert AllDigits(s) by {
      forall i | 0 <= i < |s|
        ensures IsDigit(s[i])
      {
      }
    }
    ParseInputDigits(s);
    var v := ParseInput(s).value;
    assert forall i :: 0 <= i < 8 ==> v[i] == [1, 2, 3, 4, 5, 6, 7, 8][i];
    assert v == [1, 2, 3, 4, 5, 6, 7, 8];
  }

  /** The eight-term sum, unfolded. */
  lemma DotEight(ret: seq<int>, ndx: nat)
    requires |ret| == 8
    ensures Dot(ret, 0, ndx, 8) == ret[0] * Pattern(ndx + 1, 1) + ret[1] * Pattern(ndx + 1, 2)
      + ret[2] * Pattern(ndx + 1, 3) + ret[3] * Pattern(ndx + 1, 4) + ret[4] * Pattern(ndx + 1, 5)
      + ret[5] * Pattern(ndx + 1, 6) + ret[6] * Pattern(ndx + 1, 7) + ret[7] * Pattern(ndx + 1, 8)
  {
    assert Dot(ret, 0, ndx, 1) == ret[0] * Pattern(ndx + 1, 1);
    assert Dot(ret, 0, ndx, 2) == Dot(ret, 0, ndx, 1) + ret[1] * Pattern(ndx + 1, 2);
    assert Dot(ret, 0, ndx, 3) == Dot(ret, 0, ndx, 2) + ret[2] * Pattern(ndx + 1, 3);
    assert Dot(ret, 0, ndx, 4) == Dot(ret, 0, ndx, 3) + ret[3] * Pattern(ndx + 1, 4);
    assert Dot(ret, 0, ndx, 5) == Dot(ret, 0, ndx, 4) + ret[4] * Pattern(ndx + 1, 5);
    assert Dot(ret, 0, ndx, 6) == Dot(ret, 0, ndx, 5) + ret[5] * Pattern(ndx + 1, 6);
    assert Dot(ret, 0, ndx, 7) == Dot(ret, 0, ndx, 6) + ret[6] * Pattern(ndx + 1, 7);
  }

  /** The first eight pattern values for positions 0, 1 and 2. */
  lemma FrontRows()
    ensures Pattern(1, 1) == 1 && Pattern(1, 2) == 0 && Pattern(1, 3) == -1 && Pattern(1, 4) == 0
    ensures Pattern(1, 5) == 1 && Pattern(1, 6) == 0 && Pattern(1, 7) == -1 && Pattern(1, 8) == 0
    ensures Pattern(2, 1) == 0 && Pattern(2, 2) == 1 && Pattern(2, 3) == 1 && Pattern(2, 4) == 0
    ensures Pattern(2, 5) == 0 && Pattern(2, 6) == -1 && Pattern(2, 7) == -1 && Pattern(2, 8) == 0
    ensures Pattern(3, 1) == 0 && Pattern(3, 2) == 0 && Pattern(3, 3) == 1 && Pattern(3, 4) == 1
    ensures Pattern(3, 5) == 1 && Pattern(3, 6) == 0 && Pattern(3, 7) == 0 && Pattern(3, 8) == 0
  {
  }

  /** The first eight pattern values for position 3. */
  lemma FourthRow()
    ensures Pattern(4, 1) == 0 && Pattern(4, 2) == 0 && Pattern(4, 3) == 0 && Pattern(4, 4) == 1
    ensures Pattern(4, 5) == 1 && Pattern(4, 6) == 1 && Pattern(4, 7) == 1 && Pattern(4, 8) == 0
  {
  }

  lemma {:induction false} RangeSumFront(ret: seq<int>, a: nat, b: nat)
    requires a < b <= |ret|
    ensures RangeSum(ret, a, b) == ret[a] + RangeSum(ret, a + 1, b)
    decreases b - a
  {
    if a + 1 < b {
      RangeSumFront(ret, a, b - 1);
    }
  }

  lemma FrontDigits(ret: seq<int>)
    requires |ret| == 8
    ensures Digit(ret, 0, 0) == Abs(ret[0] - ret[2] + ret[4] - ret[6]) % 10
    ensures Digit(ret, 0, 1) == Abs(ret[1] + ret[2] - ret[5] - ret[6]) % 10
  {
    FrontRows();
    DotEight(ret, 0);
    DotEight(ret, 1);
  }

  lemma MiddleDigits(ret: seq<int>)
    requires |ret| == 8
    ensures Digit(ret, 0, 2) == Abs(ret[2] + ret[3] + ret[4]) % 10
    ensures Digit(ret, 0, 3) == Abs(ret[3] + ret[4] + ret[5] + ret[6]) % 10
  {
    FrontRows();
    FourthRow();
    DotEight(ret, 2);
    DotEight(ret, 3);
  }

  lemma BackDigits(ret: seq<int>)
    requires |ret| == 8
    ensures Digit(ret, 0, 4) == Abs(ret[4] + ret[5] + ret[6] + ret[7]) % 10
    ensures Digit(ret, 0, 5) == Abs(ret[5] + ret[6] + ret[7]) % 10
    ensures Digit(ret, 0, 6) == Abs(ret[6] + ret[7]) % 10
    ensures Digit(ret, 0, 7) == Abs(ret[7]) % 10
  {
    RangeSumFront(ret, 7, 8);
    RangeSumFront(ret, 6, 8);
    RangeSumFront(ret, 5, 8);
    RangeSumFront(ret, 4, 8);
    BackHalfDigit(ret, 0, 4);
    BackHalfDigit(ret, 0, 5);
    BackHalfDigit(ret, 0, 6);
    BackHalfDigit(ret, 0, 7);
  }

  /**
   * One phase of an eight-digit signal in closed form: the first four
   * digits from the pattern, the last four suffix sums.
   */
  lemma EightDigits(ret: seq<int>)
    requires |ret| == 8
    ensures Phase(ret, 0) == [
      Abs(ret[0] - ret[2] + ret[4] - ret[6]) % 10,
      Abs(ret[1] + ret[2] - ret[5] - ret[6]) % 10,
      Abs(ret[2] + ret[3] + ret[4]) % 10,
      Abs(ret[3] + ret[4] + ret[5] + ret[6]) % 10,
      Abs(ret[4] + ret[5] + ret[6] + ret[7]) % 10,
      Abs(ret[5] + ret[6] + ret[7]) % 10,
      Abs(ret[6] + ret[7]) % 10,
      Abs(ret[7]) % 10]
  {
    FrontDigits(ret);
    MiddleDigits(ret);
    BackDigits(ret);
  }

  /** "12345678" after one phase. */
  lemma FirstPhase(signal: seq<int>)
    requires signal == [1, 2, 3, 4, 5, 6, 7, 8]
    ensures Phase(signal, 0) == [4, 8, 2, 2, 6, 1, 5, 8]
  {
    EightDigits(signal);
  }

  /** And after a second. */
  lemma SecondPhase(signal: seq<int>)
    requires signal == [4, 8, 2, 2, 6, 1, 5, 8]
    ensures Phase(signal, 0) == [3, 4, 0, 4, 0, 4, 3, 8]
  {
    EightDigits(signal);
  }

  /** The transform test: one and two phases of "12345678". */
  lemma SampleTransform(signal: seq<int>)
    requires signal == [1, 2, 3, 4, 5, 6, 7, 8]
    ensures Fft(signal, 0, 1) == [4, 8, 2, 2, 6, 1, 5, 8]
    ensures Fft(signal, 0, 2) == [3, 4, 0, 4, 0, 4, 3, 8]
  {
    FirstPhase(signal);
    var once := Phase(signal, 0);
    SecondPhase(once);
    assert Fft(signal, 0, 1) == once;
  }
}
