/**
 * Helpers shared by every model: Rust's `Option`, the `Vec2` record of the
 * utility crate, Rust's truncating integer division, and the few `str`
 * operations the programs use (`split`, `trim`, integer `parse`).
 */
module Common {

  datatype Option<T> = None | Some(value: T)

  /** Rust's `Result`, with the error type as a parameter. */
  datatype Result<T, E> = Ok(value: T) | Err(error: E)

  /** The two-component integer vector of the utility crate, with `Add`. */
  datatype Vec2 = Vec2(x: int, y: int)

  function Plus(a: Vec2, b: Vec2): (c: Vec2)
    ensures c.x - a.x == b.x && c.y - a.y == b.y
  {
    Vec2(a.x + b.x, a.y + b.y)
  }

  /** A set of one element holds only that element. */
  lemma OnlyElement<T>(s: set<T>, x: T)
    requires |s| == 1 && x in s
    ensures s == {x}
  {
    var rest := s - {x};
    assert |rest| == 0;
  }

  function Abs(n: int): (r: nat)
    ensures r == n || r == -n
  {
    if n < 0 then -n else n
  }

  // ---------------------------------------------------------------------
  // Integer ranges of the Rust types the programs parse into
  // ---------------------------------------------------------------------

  const I32_MIN: int := -0x8000_0000
  const I32_MAX: int := 0x7FFF_FFFF
  const I64_MIN: int := -0x8000_0000_0000_0000
  const I64_MAX: int := 0x7FFF_FFFF_FFFF_FFFF
  const U32_MAX: int := 0xFFFF_FFFF
  const U64_MAX: int := 0xFFFF_FFFF_FFFF_FFFF

  // ---------------------------------------------------------------------
  // Rust `/` and `%` on signed integers truncate toward zero
  // ---------------------------------------------------------------------

  /** Rust's `a / b` for a positive divisor: the quotient rounded toward zero. */
  function TDiv(a: int, b: int): (q: int)
    requires b > 0
  {
    if a >= 0 then a / b else -((-a) / b)
  }

  /** Rust's `a % b` for a positive divisor: the remainder has the sign of the dividend. */
  function TRem(a: int, b: int): (r: int)
    requires b > 0
    ensures -b < r < b
    ensures r == 0 || (r > 0 <==> a > 0)
  {
    if a >= 0 then
      assert 0 <= a % b < b;
      a % b
    else
      assert 0 <= (-a) % b < b;
      -((-a) % b)
  }

  /** Truncating quotient and remainder recombine to the dividend. */
  lemma TruncatedDivision(a: int, b: int)
    requires b > 0
    ensures a == b * TDiv(a, b) + TRem(a, b)
  {
    var n := if a >= 0 then a else -a;
    var q, r := n / b, n % b;
    assert n == b * q + r;
    if a < 0 {
      assert TDiv(a, b) == -q && TRem(a, b) == -r;
      assert b * (-q) == -(b * q);
    }
  }

  /** On non-negative dividends and positive divisors Rust agrees with Dafny. */
  lemma TruncatingAgreesOnNaturals(a: int, b: int)
    requires a >= 0 && b > 0
    ensures TDiv(a, b) == a / b && TRem(a, b) == a % b
  {
  }

  /** A positive number times a positive whole number is at least the number. */
  lemma MulAtLeast(g: nat, k: int)
    requires g > 0 && k >= 1
    ensures g * k >= g
  {
    var j := k - 1;
    assert g * k == g * j + g;
  }

  /** Quotient and remainder are the only pair that recombines with a remainder in range. */
  lemma DivUnique(a: int, g: int, q: int, r: int)
    requires g > 0 && 0 <= r < g && a == g * q + r
    ensures a / g == q && a % g == r
  {
    var q' := a / g;
    var r' := a % g;
    assert a == g * q' + r';
    if q > q' {
      assert g * (q - q') == g * q - g * q';
      MulAtLeast(g, q - q');
    } else if q < q' {
      assert g * (q' - q) == g * q' - g * q;
      MulAtLeast(g, q' - q);
    }
  }

  // ---------------------------------------------------------------------
  // Splitting (`str::split`) and joining
  // ---------------------------------------------------------------------

  /**
   * `s.split(|c| c in seps)`: the pieces between separator characters, keeping
   * empty pieces; the empty string gives one empty piece.
   */
  function SplitWhen(s: string, seps: set<char>): (parts: seq<string>)
    ensures |parts| >= 1
  {
    if |s| == 0 then [""]
    else
      var rest := SplitWhen(s[1..], seps);
      if s[0] in seps then [""] + rest
      else [[s[0]] + rest[0]] + rest[1..]
  }

  /** `s.split(c)` for a single separator character. */
  function Split(s: string, sep: char): (parts: seq<string>)
    ensures |parts| >= 1
  {
    SplitWhen(s, {sep})
  }

  /** The inverse of `Split`: the pieces with one separator between neighbours. */
  function Join(parts: seq<string>, sep: char): string
  {
    if |parts| == 0 then ""
    else if |parts| == 1 then parts[0]
    else parts[0] + [sep] + Join(parts[1..], sep)
  }

  /** No character of `a` is a separator. */
  predicate Avoids(a: string, seps: set<char>)
  {
    forall k :: 0 <= k < |a| ==> a[k] !in seps
  }

  lemma {:induction false} SplitPrepend(c: char, rest: string, seps: set<char>)
    requires c !in seps
    ensures SplitWhen([c] + rest, seps) == [[c] + SplitWhen(rest, seps)[0]] + SplitWhen(rest, seps)[1..]
  {
    assert ([c] + rest)[1..] == rest;
  }

  lemma {:induction false} SplitJoinFirst(a: string, tail: string, sep: char, seps: set<char>)
    requires sep in seps && Avoids(a, seps)
    ensures SplitWhen(a + [sep] + tail, seps) == [a] + SplitWhen(tail, seps)
    decreases |a|
  {
    if |a| == 0 {
      assert a + [sep] + tail == [sep] + tail;
      assert ([sep] + tail)[1..] == tail;
    } else {
      assert a + [sep] + tail == [a[0]] + (a[1..] + [sep] + tail);
      SplitJoinFirst(a[1..], tail, sep, seps);
      SplitPrepend(a[0], a[1..] + [sep] + tail, seps);
      assert [a[0]] + a[1..] == a;
    }
  }

  lemma {:induction false} SplitNoSeparator(a: string, seps: set<char>)
    requires Avoids(a, seps)
    ensures SplitWhen(a, seps) == [a]
    decreases |a|
  {
    if |a| > 0 {
      SplitNoSeparator(a[1..], seps);
      SplitPrepend(a[0], a[1..], seps);
      assert [a[0]] + a[1..] == a;
    }
  }

  /** Splitting a joined list gives the pieces back when no piece holds a separator. */
  lemma {:induction false} SplitJoin(parts: seq<string>, sep: char, seps: set<char>)
    requires |parts| >= 1 && sep in seps
    requires forall i :: 0 <= i < |parts| ==> Avoids(parts[i], seps)
    ensures SplitWhen(Join(parts, sep), seps) == parts
    decreases |parts|
  {
    if |parts| == 1 {
      SplitNoSeparator(parts[0], seps);
    } else {
      SplitJoin(parts[1..], sep, seps);
      SplitJoinFirst(parts[0], Join(parts[1..], sep), sep, seps);
      assert [parts[0]] + parts[1..] == parts;
    }
  }

  /**
   * `s.split(sep)` with a string pattern: matches are found left to right and
   * do not overlap.
   */
  function SplitOn(s: string, sep: string): (parts: seq<string>)
    requires |sep| > 0
    ensures |parts| >= 1
    decreases |s|
  {
    if |s| == 0 then [""]
    else if |sep| <= |s| && s[..|sep|] == sep then [""] + SplitOn(s[|sep|..], sep)
    else
      var rest := SplitOn(s[1..], sep);
      [[s[0]] + rest[0]] + rest[1..]
  }

  /** The inverse of `SplitOn`: the pieces with the separator between neighbours. */
  function JoinOn(parts: seq<string>, sep: string): string
  {
    if |parts| == 0 then ""
    else if |parts| == 1 then parts[0]
    else parts[0] + sep + JoinOn(parts[1..], sep)
  }

  /**
   * A piece in which no match of `sep` can start, even one that runs on into
   * a following separator: the separator's first character never occurs in
   * it, or its second character never does and differs from the first.
   */
  predicate Unmatched(a: string, sep: string)
  {
    |sep| > 0 && (sep[0] !in a || (|sep| >= 2 && sep[1] != sep[0] && sep[1] !in a))
  }

  lemma {:induction false} SplitOnFirst(a: string, tail: string, sep: string)
    requires Unmatched(a, sep)
    ensures SplitOn(a + sep + tail, sep) == [a] + SplitOn(tail, sep)
    decreases |a|
  {
    var s := a + sep + tail;
    if |a| == 0 {
      assert s == sep + tail && s[..|sep|] == sep && s[|sep|..] == tail;
    } else {
      assert s[..|sep|] != sep by {
        if sep[0] !in a {
          assert s[0] == a[0];
        } else if |a| >= 2 {
          assert s[1] == a[1];
        } else {
          assert s[1] == sep[0];
        }
      }
      assert s[1..] == a[1..] + sep + tail;
      SplitOnFirst(a[1..], tail, sep);
      assert [a[0]] + a[1..] == a;
    }
  }

  lemma {:induction false} SplitOnNone(a: string, sep: string)
    requires Unmatched(a, sep)
    ensures SplitOn(a, sep) == [a]
    decreases |a|
  {
    if |a| > 0 {
      assert !(|sep| <= |a| && a[..|sep|] == sep) by {
        if |sep| <= |a| && sep[0] !in a {
          assert a[..|sep|][0] == a[0];
        } else if |sep| <= |a| {
          assert a[..|sep|][1] == a[1];
        }
      }
      SplitOnNone(a[1..], sep);
      assert [a[0]] + a[1..] == a;
    }
  }

  /** Splitting joined pieces gives them back when no match can start inside a piece. */
  lemma {:induction false} SplitOnJoin(parts: seq<string>, sep: string)
    requires |parts| >= 1 && |sep| > 0
    requires forall i :: 0 <= i < |parts| ==> Unmatched(parts[i], sep)
    ensures SplitOn(JoinOn(parts, sep), sep) == parts
    decreases |parts|
  {
    if |parts| == 1 {
      SplitOnNone(parts[0], sep);
    } else {
      SplitOnJoin(parts[1..], sep);
      SplitOnFirst(parts[0], JoinOn(parts[1..], sep), sep);
      assert [parts[0]] + parts[1..] == parts;
    }
  }

  // ---------------------------------------------------------------------
  // `str::trim`
  // ---------------------------------------------------------------------

  /** The characters with the Unicode White_Space property, which `trim` removes. */
  predicate IsWhitespace(c: char)
  {
    ('\t' <= c <= '\r') || c == ' ' || c == '\U{0085}' || c == '\U{00A0}' || c == '\U{1680}'
    || ('\U{2000}' <= c <= '\U{200A}') || c == '\U{2028}' || c == '\U{2029}'
    || c == '\U{202F}' || c == '\U{205F}' || c == '\U{3000}'
  }

  function TrimStart(s: string): (t: string)
    ensures |t| <= |s| && t == s[|s| - |t|..]
    ensures |t| > 0 ==> !IsWhitespace(t[0])
    ensures forall i :: 0 <= i < |s| - |t| ==> IsWhitespace(s[i])
  {
    if |s| > 0 && IsWhitespace(s[0]) then TrimStart(s[1..]) else s
  }

  function TrimEnd(s: string): (t: string)
    ensures |t| <= |s| && t == s[..|t|]
    ensures |t| > 0 ==> !IsWhitespace(t[|t| - 1])
    ensures forall i :: |t| <= i < |s| ==> IsWhitespace(s[i])
  {
    if |s| > 0 && IsWhitespace(s[|s| - 1]) then TrimEnd(s[..|s| - 1]) else s
  }

  /** `s.trim()`: `s` without leading and trailing white space. */
  function Trim(s: string): (t: string)
    ensures |t| > 0 ==> !IsWhitespace(t[0]) && !IsWhitespace(t[|t| - 1])
  {
    TrimEnd(TrimStart(s))
  }

  lemma TrimNoWhitespace(s: string)
    requires |s| > 0 ==> !IsWhitespace(s[0]) && !IsWhitespace(s[|s| - 1])
    ensures Trim(s) == s
  {
  }

  // ---------------------------------------------------------------------
  // Integer parsing: `str::parse` / `from_str_radix(s, 10)`
  // ---------------------------------------------------------------------

  predicate IsDigit(c: char)
  {
    '0' <= c <= '9'
  }

  function DigitValue(c: char): (d: nat)
    requires IsDigit(c)
    ensures d < 10
  {
    c as int - '0' as int
  }

  function DigitChar(d: nat): (c: char)
    requires d < 10
    ensures IsDigit(c) && DigitValue(c) == d
  {
    ('0' as int + d) as char
  }

  predicate AllDigits(s: string)
  {
    forall i :: 0 <= i < |s| ==> IsDigit(s[i])
  }

  /** The number a string of decimal digits denotes, most significant first. */
  function DigitsValue(s: string): nat
    requires AllDigits(s)
  {
    if |s| == 0 then 0 else DigitsValue(s[..|s| - 1]) * 10 + DigitValue(s[|s| - 1])
  }

  /**
   * Rust's integer parser in base 10: an optional `+` (and, for signed types,
   * `-`), then one or more ASCII digits and nothing else, with the value in
   * `[lo, hi]`. The sign alone, the empty string and any other character fail.
   */
  function ParseInteger(s: string, signed: bool, lo: int, hi: int): (r: Option<int>)
    ensures r.Some? ==> lo <= r.value <= hi
    ensures |s| == 0 ==> r.None?
  {
    if |s| == 0 then None
    else
      var negative := signed && s[0] == '-';
      var digits := if s[0] == '+' || negative then s[1..] else s;
      if |digits| == 0 || !AllDigits(digits) then None
      else
        var v: int := if negative then 0 - DigitsValue(digits) else DigitsValue(digits);
        if lo <= v <= hi then Some(v) else None
  }

  function ParseI64(s: string): (r: Option<int>)
  {
    ParseInteger(s, true, I64_MIN, I64_MAX)
  }

  function ParseI32(s: string): (r: Option<int>)
  {
    ParseInteger(s, true, I32_MIN, I32_MAX)
  }

  function ParseU32(s: string): (r: Option<int>)
  {
    ParseInteger(s, false, 0, U32_MAX)
  }

  function ParseU64(s: string): (r: Option<int>)
  {
    ParseInteger(s, false, 0, U64_MAX)
  }

  /** The decimal rendering of a natural number, without leading zeros. */
  function ShowNat(n: nat): (s: string)
    ensures |s| > 0 && AllDigits(s)
  {
    if n < 10 then [DigitChar(n)] else ShowNat(n / 10) + [DigitChar(n % 10)]
  }

  /** `format!("{}", n)`. */
  function Show(n: int): (s: string)
    ensures |s| > 0
  {
    if n < 0 then "-" + ShowNat(-n) else ShowNat(n)
  }

  lemma {:induction false} ShowNatValue(n: nat)
    ensures DigitsValue(ShowNat(n)) == n
  {
    var s := ShowNat(n);
    if n >= 10 {
      ShowNatValue(n / 10);
      assert s[..|s| - 1] == ShowNat(n / 10);
    }
  }

  /** Parsing the rendering of any in-range value gives that value back. */
  lemma ParseShow(n: int, signed: bool, lo: int, hi: int)
    requires lo <= n <= hi
    requires n < 0 ==> signed
    ensures ParseInteger(Show(n), signed, lo, hi) == Some(n)
  {
    var s := Show(n);
    var digits := ShowNat(Abs(n));
    ShowNatValue(Abs(n));
    if n < 0 {
      assert s[0] == '-' && s[1..] == digits;
    } else {
      assert s == digits && IsDigit(s[0]);
    }
  }

  /** A signed parse of a rendering gives the value back exactly when it is in range. */
  lemma ParseShowSigned(n: int, lo: int, hi: int)
    ensures ParseInteger(Show(n), true, lo, hi) == if lo <= n <= hi then Some(n) else None
  {
    var s := Show(n);
    var digits := ShowNat(Abs(n));
    ShowNatValue(Abs(n));
    if n < 0 {
      assert s[0] == '-' && s[1..] == digits;
    } else {
      assert s == digits && IsDigit(s[0]);
    }
  }

  /** A sign with no digits after it is rejected. */
  lemma ParseRejectsBareSign(signed: bool, lo: int, hi: int)
    ensures ParseInteger("+", signed, lo, hi).None?
    ensures ParseInteger("-", signed, lo, hi).None?
  {
    assert !IsDigit('-');
  }

  // ---------------------------------------------------------------------
  // Program text: numbers in decimal, separated by commas
  // ---------------------------------------------------------------------

  /** Each word of the program in decimal. */
  function Rendered(program: seq<int>): (parts: seq<string>)
    ensures |parts| == |program|
    ensures forall i :: 0 <= i < |program| ==> parts[i] == Show(program[i])
  {
    seq(|program|, i requires 0 <= i < |program| => Show(program[i]))
  }

  /** The text of a program as the puzzles write it: the words joined by commas. */
  function ProgramText(program: seq<int>): string
  {
    Join(Rendered(program), ',')
  }

  lemma {:induction false} ShowShape(n: int)
    ensures ',' !in Show(n)
    ensures Show(n)[0] == '-' || IsDigit(Show(n)[0])
    ensures IsDigit(Show(n)[|Show(n)| - 1])
  {
    var d := ShowNat(if n < 0 then -n else n);
    assert forall c :: c in d ==> IsDigit(c);
    if n < 0 {
      assert Show(n) == "-" + d;
    }
  }

  lemma {:induction false} JoinEnds(parts: seq<string>, sep: char)
    requires |parts| >= 1
    requires forall i :: 0 <= i < |parts| ==> |parts[i]| > 0
    ensures |Join(parts, sep)| > 0
    ensures Join(parts, sep)[0] == parts[0][0]
    ensures Join(parts, sep)[|Join(parts, sep)| - 1] == parts[|parts| - 1][|parts[|parts| - 1]| - 1]
    decreases |parts|
  {
    if |parts| > 1 {
      JoinEnds(parts[1..], sep);
    }
  }

  lemma RenderedWords(program: seq<int>)
    ensures forall i :: 0 <= i < |program| ==> ',' !in Rendered(program)[i] && |Rendered(program)[i]| > 0
  {
    forall i | 0 <= i < |program| ensures ',' !in Rendered(program)[i] && |Rendered(program)[i]| > 0 {
      ShowShape(program[i]);
    }
  }

  lemma TextTrimmed(program: seq<int>)
    requires |program| > 0
    ensures Trim(ProgramText(program)) == ProgramText(program)
  {
    var parts := Rendered(program);
    var text := ProgramText(program);
    var first, last := parts[0], parts[|parts| - 1];
    RenderedWords(program);
    JoinEnds(parts, ',');
    assert text[0] == first[0] && text[|text| - 1] == last[|last| - 1];
    ShowShape(program[0]);
    ShowShape(program[|program| - 1]);
    assert !IsWhitespace(text[0]) && !IsWhitespace(text[|text| - 1]);
    TrimNoWhitespace(text);
  }

  lemma TextOfRendered(program: seq<int>)
    requires |program| > 0
    ensures Trim(ProgramText(program)) == ProgramText(program)
    ensures Split(ProgramText(program), ',') == Rendered(program)
  {
    TextTrimmed(program);
    RenderedWords(program);
    SplitJoin(Rendered(program), ',', {','});
  }

  /** The texts of the programs `[0]` and `[1, 2]`. */
  lemma RenderedExamples()
    ensures ProgramText([0]) == "0"
    ensures ProgramText([1, 2]) == "1,2"
  {
    assert Rendered([0]) == ["0"];
    assert Rendered([1, 2]) == ["1", "2"];
  }
}
