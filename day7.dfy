/**
 * Day 7 of 2019: amplifier phase settings. `permutation` lists every
 * ordering of a run of consecutive numbers, in lexicographic order; the
 * amplifier chain runs one copy of the program per phase, feeding it the
 * phase and then the previous stage's output; the answer is the largest
 * chain output over all orderings of 0..4.
 */
module Day7 {
  import opened Common
  import opened Intcode

  // =====================================================================
  // Permutations
  // =====================================================================

  /** `begin, begin + 1, ..., begin + n - 1`. */
  function Range(begin: int, n: nat): (r: seq<int>)
    ensures |r| == n
    ensures forall i :: 0 <= i < n ==> r[i] == begin + i
  {
    seq(n, i => begin + i)
  }

  /** `to_perm` after `to_perm.remove(i)`. */
  function Without(s: seq<int>, i: nat): (r: seq<int>)
    requires i < |s|
    ensures |r| == |s| - 1
  {
    s[..i] + s[i + 1..]
  }

  /**
   * What `inner(result, prefix, to_perm)` appends to `result`: the prefix
   * itself once `to_perm` is empty, otherwise the branches for every index.
   */
  function Perms(prefix: seq<int>, toPerm: seq<int>): seq<seq<int>>
    decreases |toPerm|, 1, 0
  {
    if |toPerm| == 0 then [prefix] else Branches(prefix, toPerm, |toPerm|)
  }

  /** The branches for indices `0..k`: each extends the prefix by `to_perm[i]` and permutes the rest. */
  function Branches(prefix: seq<int>, toPerm: seq<int>, k: nat): seq<seq<int>>
    requires 0 < |toPerm| && k <= |toPerm|
    decreases |toPerm|, 0, k
  {
    if k == 0 then []
    else Branches(prefix, toPerm, k - 1) + Perms(prefix + [toPerm[k - 1]], Without(toPerm, k - 1))
  }

  /** `permutation(begin, n)`: nothing at all for `n == 0`, else every ordering of the range. */
  function Permutations(begin: int, n: nat): seq<seq<int>>
  {
    if n == 0 then [] else Perms([], Range(begin, n))
  }

  /** `inner`: appends the permutations of `to_perm`, each after the prefix, to `result`. */
  method Inner(result: seq<seq<int>>, prefix: seq<int>, toPerm: seq<int>) returns (result': seq<seq<int>>)
    ensures result' == result + Perms(prefix, toPerm)
    decreases |toPerm|
  {
    if |toPerm| == 0 {
      return result + [prefix];
    }
    result' := result;
    var i := 0;
    while i < |toPerm|
      invariant 0 <= i <= |toPerm|
      invariant result' == result + Branches(prefix, toPerm, i)
    {
      var prefix' := prefix + [toPerm[i]];
      var toPerm' := Without(toPerm, i);
      result' := Inner(result', prefix', toPerm');
      i := i + 1;
    }
  }

  /** `permutation`: builds `to_perm = begin..begin + n` and calls `inner` unless `n` is 0. */
  method Permutation(begin: int, n: nat) returns (r: seq<seq<int>>)
    ensures r == Permutations(begin, n)
  {
    var toPerm: seq<int> := [];
    var i := 0;
    while i < n
      invariant 0 <= i <= n
      invariant toPerm == Range(begin, i)
    {
      toPerm := toPerm + [begin + i];
      i := i + 1;
    }
    r := [];
    if n != 0 {
      r := Inner([], [], toPerm);
    }
  }

  // ---------------------------------------------------------------------
  // What the permutations are
  // ---------------------------------------------------------------------

  lemma WithoutSplits(s: seq<int>, i: nat)
    requires i < |s|
    ensures multiset(s) == multiset{s[i]} + multiset(Without(s, i))
  {
    assert s == s[..i] + [s[i]] + s[i + 1..];
  }

  /** Every result is the prefix followed by a rearrangement of `to_perm`. */
  lemma {:induction false} PermsShape(prefix: seq<int>, toPerm: seq<int>)
    ensures forall p :: p in Perms(prefix, toPerm) ==>
      |p| == |prefix| + |toPerm| && p[..|prefix|] == prefix && multiset(p[|prefix|..]) == multiset(toPerm)
    decreases |toPerm|, 1, 0
  {
    if |toPerm| == 0 {
      assert Perms(prefix, toPerm) == [prefix];
    } else {
      BranchesShape(prefix, toPerm, |toPerm|);
    }
  }

  /** The same for the first `k` branches, whose element after the prefix is one of `to_perm[..k]`. */
  lemma {:induction false} BranchesShape(prefix: seq<int>, toPerm: seq<int>, k: nat)
    requires 0 < |toPerm| && k <= |toPerm|
    ensures forall p :: p in Branches(prefix, toPerm, k) ==>
      |p| == |prefix| + |toPerm| && p[..|prefix|] == prefix && multiset(p[|prefix|..]) == multiset(toPerm)
      && p[|prefix|] in toPerm[..k]
    decreases |toPerm|, 0, k
  {
    if k > 0 {
      BranchesShape(prefix, toPerm, k - 1);
      var prefix' := prefix + [toPerm[k - 1]];
      var rest := Without(toPerm, k - 1);
      PermsShape(prefix', rest);
      BranchShape(prefix, toPerm, k);
      forall p | p in Branches(prefix, toPerm, k - 1) ensures p[|prefix|] in toPerm[..k] {
        assert toPerm[..k - 1] <= toPerm[..k];
      }
    }
  }

  /** The shape of branch `k - 1`, given the shape of the permutations it extends. */
  lemma BranchShape(prefix: seq<int>, toPerm: seq<int>, k: nat)
    requires 0 < k <= |toPerm|
    requires var prefix', rest := prefix + [toPerm[k - 1]], Without(toPerm, k - 1);
      forall p :: p in Perms(prefix', rest) ==>
        |p| == |prefix'| + |rest| && p[..|prefix'|] == prefix' && multiset(p[|prefix'|..]) == multiset(rest)
    ensures forall p :: p in Perms(prefix + [toPerm[k - 1]], Without(toPerm, k - 1)) ==>
      |p| == |prefix| + |toPerm| && p[..|prefix|] == prefix && multiset(p[|prefix|..]) == multiset(toPerm)
      && p[|prefix|] in toPerm[..k]
  {
    var prefix', rest := prefix + [toPerm[k - 1]], Without(toPerm, k - 1);
    WithoutSplits(toPerm, k - 1);
    forall p | p in Perms(prefix', rest)
      ensures |p| == |prefix| + |toPerm| && p[..|prefix|] == prefix
      ensures multiset(p[|prefix|..]) == multiset(toPerm) && p[|prefix|] in toPerm[..k]
    {
      assert p[..|prefix|] == p[..|prefix'|][..|prefix|];
      assert p[|prefix|] == p[..|prefix'|][|prefix|];
      assert p[|prefix|..] == [p[|prefix|]] + p[|prefix'|..];
    }
  }

  /** `n!`. */
  function Factorial(n: nat): (f: nat)
    ensures f >= 1
  {
    if n == 0 then 1 else n * Factorial(n - 1)
  }

  /** There are `|to_perm|!` results. */
  lemma {:induction false} PermsCount(prefix: seq<int>, toPerm: seq<int>)
    ensures |Perms(prefix, toPerm)| == Factorial(|toPerm|)
    decreases |toPerm|, 1, 0
  {
    if |toPerm| > 0 {
      BranchesCount(prefix, toPerm, |toPerm|);
    }
  }

  lemma {:induction false} BranchesCount(prefix: seq<int>, toPerm: seq<int>, k: nat)
    requires 0 < |toPerm| && k <= |toPerm|
    ensures |Branches(prefix, toPerm, k)| == k * Factorial(|toPerm| - 1)
    decreases |toPerm|, 0, k
  {
    if k > 0 {
      var f := Factorial(|toPerm| - 1);
      var rest := Without(toPerm, k - 1);
      BranchesCount(prefix, toPerm, k - 1);
      PermsCount(prefix + [toPerm[k - 1]], rest);
      assert |rest| == |toPerm| - 1;
      assert |Branches(prefix, toPerm, k)| == (k - 1) * f + f;
      assert (k - 1) * f + f == k * f;
    }
  }

  /**
   * `permutation(b, 0)` is empty, `permutation(b, 1)` is `[[b]]`, and for
   * every other `n` the list holds `n!` distinct orderings, each of length
   * `n` with exactly the values `b..b + n`, each once.
   */
  lemma PermutationsAreOrderings(begin: int, n: nat)
    ensures Permutations(begin, 0) == []
    ensures Permutations(begin, 1) == [[begin]]
    ensures n > 0 ==> |Permutations(begin, n)| == Factorial(n)
    ensures forall p :: p in Permutations(begin, n) ==> |p| == n && multiset(p) == multiset(Range(begin, n))
    ensures forall i, j :: 0 <= i < j < |Permutations(begin, n)| ==> Permutations(begin, n)[i] != Permutations(begin, n)[j]
  {
    var ps := Permutations(begin, n);
    PermutationsSorted(begin, n);
    forall i, j | 0 <= i < j < |ps|
      ensures ps[i] != ps[j]
    {
      LexIrreflexive(ps[i]);
    }
    assert Range(begin, 1) == [begin];
    assert Without([begin], 0) == [] && [] + [begin] == [begin];
    assert Perms([begin], []) == [[begin]];
    assert Branches([], [begin], 1) == [] + Perms([begin], []);
    if n > 0 {
      PermsCount([], Range(begin, n));
      PermsShape([], Range(begin, n));
      forall p | p in Permutations(begin, n) ensures multiset(p) == multiset(Range(begin, n)) {
        assert p[0..] == p;
      }
    }
  }

  // ---------------------------------------------------------------------
  // Lexicographic order
  // ---------------------------------------------------------------------

  /** `a` comes strictly before `b` in dictionary order. */
  predicate LexLess(a: seq<int>, b: seq<int>)
  {
    |a| > 0 && |b| > 0 && (a[0] < b[0] || (a[0] == b[0] && LexLess(a[1..], b[1..])))
  }

  predicate Increasing(s: seq<int>)
  {
    forall i, j :: 0 <= i < j < |s| ==> s[i] < s[j]
  }

  /** Every earlier entry comes strictly before every later one. */
  /** No sequence comes before itself. */
  lemma {:induction false} LexIrreflexive(a: seq<int>)
    ensures !LexLess(a, a)
    decreases |a|
  {
    if |a| > 0 {
      LexIrreflexive(a[1..]);
    }
  }

  predicate LexSorted(ps: seq<seq<int>>)
  {
    forall i, j :: 0 <= i < j < |ps| ==> LexLess(ps[i], ps[j])
  }

  /** Two sequences that agree up to position `k` and differ there are ordered by that position. */
  lemma {:induction false} LexAt(a: seq<int>, b: seq<int>, k: nat)
    requires k < |a| && k < |b| && a[..k] == b[..k] && a[k] < b[k]
    ensures LexLess(a, b)
  {
    if k > 0 {
      assert a[0] == a[..k][0] == b[..k][0] == b[0];
      assert a[1..][..k - 1] == a[1..k] == a[..k][1..];
      assert b[1..][..k - 1] == b[1..k] == b[..k][1..];
      LexAt(a[1..], b[1..], k - 1);
    }
  }

  /** A common prefix does not change the order. */
  lemma {:induction false} LexPrefix(c: seq<int>, a: seq<int>, b: seq<int>)
    requires LexLess(a, b)
    ensures LexLess(c + a, c + b)
    decreases |c|
  {
    if |c| > 0 {
      assert (c + a)[0] == c[0] == (c + b)[0];
      assert (c + a)[1..] == c[1..] + a;
      assert (c + b)[1..] == c[1..] + b;
      LexPrefix(c[1..], a, b);
      assert LexLess((c + a)[1..], (c + b)[1..]);
    } else {
      assert c + a == a && c + b == b;
    }
  }

  lemma SortedAppend(xs: seq<seq<int>>, ys: seq<seq<int>>)
    requires LexSorted(xs) && LexSorted(ys)
    requires forall x, y :: x in xs && y in ys ==> LexLess(x, y)
    ensures LexSorted(xs + ys)
  {
    var zs := xs + ys;
    forall i, j | 0 <= i < j < |zs| ensures LexLess(zs[i], zs[j]) {
      if j < |xs| {
        assert zs[i] == xs[i] && zs[j] == xs[j];
      } else if i >= |xs| {
        assert zs[i] == ys[i - |xs|] && zs[j] == ys[j - |xs|];
      } else {
        assert zs[i] in xs && zs[j] in ys;
      }
    }
  }

  lemma WithoutIncreasing(s: seq<int>, i: nat)
    requires i < |s| && Increasing(s)
    ensures Increasing(Without(s, i))
  {
    var r := Without(s, i);
    forall a, b | 0 <= a < b < |r| ensures r[a] < r[b] {
      var a' := if a < i then a else a + 1;
      var b' := if b < i then b else b + 1;
      assert r[a] == s[a'] && r[b] == s[b'];
    }
  }

  /** When `to_perm` is increasing, `inner` produces its results in lexicographic order. */
  lemma {:induction false} PermsSorted(prefix: seq<int>, toPerm: seq<int>)
    requires Increasing(toPerm)
    ensures LexSorted(Perms(prefix, toPerm))
    decreases |toPerm|, 1, 0
  {
    if |toPerm| > 0 {
      BranchesSorted(prefix, toPerm, |toPerm|);
    }
  }

  lemma {:induction false} BranchesSorted(prefix: seq<int>, toPerm: seq<int>, k: nat)
    requires Increasing(toPerm) && 0 < |toPerm| && k <= |toPerm|
    ensures LexSorted(Branches(prefix, toPerm, k))
    decreases |toPerm|, 0, k
  {
    if k > 0 {
      var earlier := Branches(prefix, toPerm, k - 1);
      var prefix' := prefix + [toPerm[k - 1]];
      var rest := Without(toPerm, k - 1);
      BranchesSorted(prefix, toPerm, k - 1);
      WithoutIncreasing(toPerm, k - 1);
      PermsSorted(prefix', rest);
      BranchesShape(prefix, toPerm, k - 1);
      PermsShape(prefix', rest);
      forall x, y | x in earlier && y in Perms(prefix', rest) ensures LexLess(x, y) {
        assert y[..|prefix'|][..|prefix|] == y[..|prefix|];
        assert y[|prefix|] == y[..|prefix'|][|prefix|] == toPerm[k - 1];
        assert x[|prefix|] < toPerm[k - 1] by {
          var j :| 0 <= j < k - 1 && toPerm[..k - 1][j] == x[|prefix|];
          assert toPerm[j] == x[|prefix|];
        }
        LexAt(x, y, |prefix|);
      }
      SortedAppend(earlier, Perms(prefix', rest));
    }
  }

  /** `permutation(b, n)` lists its orderings in strictly increasing dictionary order. */
  lemma PermutationsSorted(begin: int, n: nat)
    ensures LexSorted(Permutations(begin, n))
  {
    if n > 0 {
      PermsSorted([], Range(begin, n));
    }
  }

  /** The two-element lists of the tests. */
  lemma PermutationsOfTwo(begin: int)
    ensures Permutations(begin, 2) == [[begin, begin + 1], [begin + 1, begin]]
  {
    var t := [begin, begin + 1];
    assert Range(begin, 2) == t;
    assert Without(t, 0) == [begin + 1];
    assert Without(t, 1) == [begin];
    PermsOfOne([begin], begin + 1);
    PermsOfOne([begin + 1], begin);
    assert [] + [begin] == [begin] && [] + [begin + 1] == [begin + 1];
    assert [begin] + [begin + 1] == [begin, begin + 1] && [begin + 1] + [begin] == [begin + 1, begin];
    assert Branches([], t, 1) == [[begin, begin + 1]];
    assert Branches([], t, 2) == Branches([], t, 1) + Perms([begin + 1], [begin]);
  }

  /** `inner` on a prefix and one remaining value. */
  lemma PermsOfOne(prefix: seq<int>, a: int)
    ensures Perms(prefix, [a]) == [prefix + [a]]
  {
    assert Without([a], 0) == [];
    assert Perms(prefix + [a], []) == [prefix + [a]];
    assert Branches(prefix, [a], 1) == [] + [prefix + [a]];
  }

  /** `inner` on a prefix and two remaining values. */
  lemma PermsOfPair(prefix: seq<int>, a: int, b: int)
    ensures Perms(prefix, [a, b]) == [prefix + [a, b], prefix + [b, a]]
  {
    assert Without([a, b], 0) == [b];
    assert Without([a, b], 1) == [a];
    PermsOfOne(prefix + [a], b);
    PermsOfOne(prefix + [b], a);
    assert prefix + [a] + [b] == prefix + [a, b];
    assert prefix + [b] + [a] == prefix + [b, a];
    assert Branches(prefix, [a, b], 1) == [prefix + [a, b]];
  }

  /** The three-element lists of the tests. */
  lemma PermutationsOfThree(begin: int)
    ensures var a, b, c := begin, begin + 1, begin + 2;
      Permutations(begin, 3) == [[a, b, c], [a, c, b], [b, a, c], [b, c, a], [c, a, b], [c, b, a]]
  {
    var a, b, c := begin, begin + 1, begin + 2;
    var t := [a, b, c];
    assert Range(begin, 3) == t;
    assert Without(t, 0) == [b, c];
    assert Without(t, 1) == [a, c];
    assert Without(t, 2) == [a, b];
    PermsOfPair([a], b, c);
    PermsOfPair([b], a, c);
    PermsOfPair([c], a, b);
    assert [a] + [b, c] == [a, b, c] && [a] + [c, b] == [a, c, b];
    assert [b] + [a, c] == [b, a, c] && [b] + [c, a] == [b, c, a];
    assert [c] + [a, b] == [c, a, b] && [c] + [b, a] == [c, b, a];
    assert [] + [a] == [a] && [] + [b] == [b] && [] + [c] == [c];
    assert Branches([], t, 1) == [[a, b, c], [a, c, b]];
    assert Branches([], t, 2) == [[a, b, c], [a, c, b], [b, a, c], [b, c, a]];
    assert Branches([], t, 3) == Branches([], t, 2) + Perms([c], [a, b]);
  }

  // =====================================================================
  // The amplifier chain
  // =====================================================================

  /** Why a chain stops: the VM failed, its output was not one number, or it ran out of fuel. */
  datatype ChainError = VmFailed(error: Error) | OutputNotANumber | OutOfFuel

  /** What `write_number` put in the output buffer: every number on its own line. */
  function OutputText(outs: seq<int>): string
  {
    if |outs| == 0 then "" else Show(outs[0]) + "\n" + OutputText(outs[1..])
  }

  lemma AppendLine(s: string)
    requires |s| > 0 && !IsWhitespace(s[0]) && !IsWhitespace(s[|s| - 1])
    ensures Trim(s + "\n") == s
  {
    assert TrimStart(s + "\n") == s + "\n";
    assert (s + "\n")[..|s|] == s;
  }

  /**
   * `output_str.trim().parse()` succeeds exactly when the stage wrote one
   * number, in range; no output and several outputs are both rejected.
   */
  lemma {:induction false} ParseOutput(outs: seq<int>, lo: int, hi: int)
    ensures ParseInteger(Trim(OutputText(outs)), true, lo, hi)
      == if |outs| == 1 && lo <= outs[0] <= hi then Some(outs[0]) else None
  {
    if |outs| == 0 {
      assert Trim("") == "";
    } else {
      var head := Show(outs[0]);
      ShowShape(outs[0]);
      var text := OutputText(outs);
      if |outs| == 1 {
        assert OutputText(outs[1..]) == "";
        assert text == head + "\n";
        AppendLine(head);
        ParseShowSigned(outs[0], lo, hi);
      } else {
        var next := Show(outs[1]);
        ShowShape(outs[1]);
        assert outs[1..][1..] == outs[2..];
        var rest := next + "\n" + OutputText(outs[2..]);
        assert OutputText(outs[1..]) == rest;
        assert rest[0] == next[0];
        SecondLine(head, rest);
        BrokenNumber(Trim(text), |head|, lo, hi);
      }
    }
  }

  /** Text that goes on after the first line keeps that line's newline when trimmed. */
  lemma SecondLine(head: string, rest: string)
    requires |head| > 0 && !IsWhitespace(head[0])
    requires |rest| > 0 && !IsWhitespace(rest[0])
    ensures |Trim(head + "\n" + rest)| > |head| && Trim(head + "\n" + rest)[|head|] == '\n'
  {
    var text := head + "\n" + rest;
    assert text[0] == head[0];
    assert TrimStart(text) == text;
    assert text[|head| + 1] == rest[0];
  }

  /** A newline after the first character makes a number unparseable. */
  lemma BrokenNumber(t: string, k: nat, lo: int, hi: int)
    requires 1 <= k < |t| && t[k] == '\n'
    ensures ParseInteger(t, true, lo, hi) == None
  {
    assert !IsDigit('\n');
    var digits := if t[0] == '+' || t[0] == '-' then t[1..] else t;
    if digits == t {
      assert !IsDigit(digits[k]);
    } else {
      assert !IsDigit(digits[k - 1]);
    }
  }

  /** The input a stage reads: its phase, then the previous output, then end of file. */
  function StageInput(phase: int, input: int): Port
  {
    Port([phase, input], EOF, None, [])
  }

  /** One amplifier: a fresh copy of the program run on the phase and the input. */
  function Stage(program: seq<int>, phase: int, input: int, fuel: nat): Result<int, ChainError>
  {
    var (status, _, io) := RunProgram(program, StageInput(phase, input), fuel);
    if status.Running? then Err(OutOfFuel)
    else if status.Failed? then Err(VmFailed(status.error))
    else match ParseI64(Trim(OutputText(Outputs(io.log))))
      case None => Err(OutputNotANumber)
      case Some(v) => Ok(v)
  }

  /** A stage yields a value exactly when its run halts having written that one number. */
  lemma StageMeaning(program: seq<int>, phase: int, input: int, fuel: nat)
    ensures var (status, _, io) := RunProgram(program, StageInput(phase, input), fuel);
      Stage(program, phase, input, fuel).Ok? <==>
        status == Halted && |Outputs(io.log)| == 1 && I64_MIN <= Outputs(io.log)[0] <= I64_MAX
    ensures var (status, _, io) := RunProgram(program, StageInput(phase, input), fuel);
      Stage(program, phase, input, fuel).Ok? ==> Outputs(io.log) == [Stage(program, phase, input, fuel).value]
  {
    var (status, _, io) := RunProgram(program, StageInput(phase, input), fuel);
    ParseOutput(Outputs(io.log), I64_MIN, I64_MAX);
  }

  /** The stage function of a program: phase and input to output. */
  function StageOf(program: seq<int>, fuel: nat): (int, int) -> Result<int, ChainError>
  {
    (phase: int, input: int) => Stage(program, phase, input, fuel)
  }

  /**
   * The loop of `run_amplifier_controller_program`, for any stage function:
   * each stage gets its phase and the previous output, and the first error
   * ends the chain.
   */
  function ChainWith<E>(stage: (int, int) -> Result<int, E>, phases: seq<int>, input: int): Result<int, E>
  {
    if |phases| == 0 then Ok(input)
    else match stage(phases[0], input)
      case Err(e) => Err(e)
      case Ok(v) => ChainWith(stage, phases[1..], v)
  }

  /** `run_amplifier_controller_program`: the chain of the program's stages, starting from input 0. */
  function Chain(program: seq<int>, phases: seq<int>, fuel: nat): Result<int, ChainError>
  {
    ChainWith(StageOf(program, fuel), phases, 0)
  }

  /** Running two lists of phases one after the other is running their concatenation. */
  lemma {:induction false} ChainAppend<E>(stage: (int, int) -> Result<int, E>, a: seq<int>, b: seq<int>, input: int)
    ensures ChainWith(stage, a + b, input) ==
      match ChainWith(stage, a, input)
      case Err(e) => Err(e)
      case Ok(v) => ChainWith(stage, b, v)
    decreases |a|
  {
    if |a| > 0 {
      assert (a + b)[0] == a[0] && (a + b)[1..] == a[1..] + b;
      match stage(a[0], input)
      case Err(e) =>
      case Ok(v) => ChainAppend(stage, a[1..], b, v);
    } else {
      assert a + b == b;
    }
  }

  /** One amplifier, on a copy of the program in a fresh array. */
  method RunStage(program: seq<int>, phase: int, input: int, fuel: nat) returns (r: Result<int, ChainError>)
    ensures r == Stage(program, phase, input, fuel)
  {
    var copy := new int[|program|](i requires 0 <= i < |program| => program[i]);
    assert copy[..] == program;
    var status, io := ExecuteWithIo(copy, StageInput(phase, input), fuel);
    if status.Running? {
      return Err(OutOfFuel);
    }
    if status.Failed? {
      return Err(VmFailed(status.error));
    }
    var parsed := ParseI64(Trim(OutputText(Outputs(io.log))));
    if parsed.None? {
      return Err(OutputNotANumber);
    }
    r := Ok(parsed.value);
  }

  /** `run_amplifier_controller_program`: the input starts at 0 and each stage's output replaces it. */
  method RunAmplifierControllerProgram(program: seq<int>, phases: seq<int>, fuel: nat) returns (r: Result<int, ChainError>)
    ensures r == Chain(program, phases, fuel)
  {
    var input := 0;
    var i := 0;
    while i < |phases|
      invariant 0 <= i <= |phases|
      invariant Chain(program, phases, fuel) == ChainWith(StageOf(program, fuel), phases[i..], input)
    {
      var out := RunStage(program, phases[i], input, fuel);
      assert StageOf(program, fuel)(phases[i], input) == out;
      assert phases[i..][1..] == phases[i + 1..];
      if out.Err? {
        return Err(out.error);
      }
      input := out.value;
      i := i + 1;
    }
    r := Ok(input);
  }

  // =====================================================================
  // The best phase setting
  // =====================================================================

  function Max(a: int, b: int): int
  {
    if a < b then b else a
  }

  /** `find_max_thruster`'s loop over `settings`, from the running maximum `best`; the first failure ends it. */
  function MaxThrust<E>(run: seq<int> -> Result<int, E>, settings: seq<seq<int>>, best: int): Result<int, E>
  {
    if |settings| == 0 then Ok(best)
    else match run(settings[0])
      case Err(e) => Err(e)
      case Ok(v) => MaxThrust(run, settings[1..], Max(best, v))
  }

  /**
   * The loop's answer: when it succeeds, every setting's chain succeeds, none
   * exceeds the answer, and the answer is the starting value (index -1) or the
   * output of setting `k`; when it fails, setting `k` is the first that fails,
   * with that error.
   */
  lemma {:induction false} MaxThrustMeaning<E>(run: seq<int> -> Result<int, E>, settings: seq<seq<int>>, best: int)
      returns (k: int)
    ensures var r := MaxThrust(run, settings, best);
      -1 <= k < |settings|
      && (r.Ok? ==>
        best <= r.value
        && (forall i :: 0 <= i < |settings| ==> run(settings[i]).Ok? && run(settings[i]).value <= r.value)
        && (if k == -1 then r.value == best else run(settings[k]) == Ok(r.value)))
      && (r.Err? ==>
        0 <= k && run(settings[k]) == Err(r.error)
        && forall i :: 0 <= i < k ==> run(settings[i]).Ok?)
    decreases |settings|
  {
    if |settings| == 0 {
      return -1;
    }
    match run(settings[0])
    case Err(e) =>
      return 0;
    case Ok(v) =>
      var j := MaxThrustMeaning(run, settings[1..], Max(best, v));
      var r := MaxThrust(run, settings, best);
      forall i | 1 <= i < |settings| ensures settings[i] == settings[1..][i - 1] { }
      if r.Ok? {
        k := if j == -1 then (if v <= best then -1 else 0) else j + 1;
      } else {
        k := j + 1;
      }
  }

  /** The chain function of a program: phase setting to thrust. */
  function ChainOf(program: seq<int>, fuel: nat): seq<int> -> Result<int, ChainError>
  {
    (phases: seq<int>) => Chain(program, phases, fuel)
  }

  /** `find_max_thruster`: the largest chain output over `permutation(0, 5)`, from `i64::MIN`. */
  method FindMaxThruster(program: seq<int>, fuel: nat) returns (r: Result<int, ChainError>)
    ensures r == MaxThrust(ChainOf(program, fuel), Permutations(0, 5), I64_MIN)
  {
    var settings := Permutation(0, 5);
    r := MaxOver(program, settings, fuel);
  }

  /** The loop of `find_max_thruster` over a given list of phase settings. */
  method MaxOver(program: seq<int>, settings: seq<seq<int>>, fuel: nat) returns (r: Result<int, ChainError>)
    ensures r == MaxThrust(ChainOf(program, fuel), settings, I64_MIN)
  {
    var best := I64_MIN;
    var i := 0;
    while i < |settings|
      invariant 0 <= i <= |settings|
      invariant MaxThrust(ChainOf(program, fuel), settings, I64_MIN) == MaxThrust(ChainOf(program, fuel), settings[i..], best)
    {
      var out := RunAmplifierControllerProgram(program, settings[i], fuel);
      assert ChainOf(program, fuel)(settings[i]) == out;
      assert settings[i..][1..] == settings[i + 1..];
      if out.Err? {
        return Err(out.error);
      }
      best := Max(best, out.value);
      i := i + 1;
    }
    r := Ok(best);
  }

  // ---------------------------------------------------------------------
  // The first test program
  // ---------------------------------------------------------------------

  /** `3,15,3,16,1002,16,10,16,1,16,15,15,4,15,99,0,0`. */
  const TenTimesPlusPhase: seq<int> := [3, 15, 3, 16, 1002, 16, 10, 16, 1, 16, 15, 15, 4, 15, 99, 0, 0]

  /** The machine after each of the first test program's instructions. */
  function TenTimesState(phase: int, input: int, k: nat): Machine
  {
    var m := Initial(TenTimesPlusPhase, StageInput(phase, input));
    if k == 0 then m
    else if k == 1 then m.(mem := m.mem[15 := phase], pc := 2, io := Port([input], EOF, None, [Prompted]))
    else
      var m2 := m.(mem := m.mem[15 := phase][16 := input], pc := 4, io := Port([], EOF, None, [Prompted, Prompted]));
      if k == 2 then m2
      else if k == 3 then m2.(mem := m2.mem[16 := 10 * input], pc := 8)
      else
        var m4 := m2.(mem := m2.mem[16 := 10 * input][15 := 10 * input + phase], pc := 12);
        if k == 4 then m4
        else m4.(pc := 14, io := Port([], EOF, None, [Prompted, Prompted, Wrote(10 * input + phase)]))
  }

  lemma TenTimesStep0(phase: int, input: int)
    ensures Step(TenTimesState(phase, input, 0)) == Next(TenTimesState(phase, input, 1))
  {
    DecodeEncode(Input(Position));
    var m := TenTimesState(phase, input, 0);
    assert Read(m.mem, 0) == Ok(3) && Read(m.mem, 1) == Ok(15);
  }

  lemma TenTimesStep1(phase: int, input: int)
    ensures Step(TenTimesState(phase, input, 1)) == Next(TenTimesState(phase, input, 2))
  {
    DecodeEncode(Input(Position));
    var m := TenTimesState(phase, input, 1);
    assert Read(m.mem, 2) == Ok(3) && Read(m.mem, 3) == Ok(16);
  }

  lemma TenTimesReads2(phase: int, input: int)
    ensures var m := TenTimesState(phase, input, 2);
      Read(m.mem, 4) == Ok(1002) && Read(m.mem, 5) == Ok(16) && Read(m.mem, 6) == Ok(10)
      && Read(m.mem, 7) == Ok(16) && Read(m.mem, 16) == Ok(input)
  {
    var m := TenTimesState(phase, input, 2);
    assert m.mem == Loaded(TenTimesPlusPhase)[15 := phase][16 := input];
    LoadedReads(TenTimesPlusPhase, 4);
    LoadedReads(TenTimesPlusPhase, 5);
    LoadedReads(TenTimesPlusPhase, 6);
    LoadedReads(TenTimesPlusPhase, 7);
  }

  lemma TenTimesStep2(phase: int, input: int)
    ensures Step(TenTimesState(phase, input, 2)) == Next(TenTimesState(phase, input, 3))
  {
    DecodeEncode(Multiply(Position, Immediate, Position));
    var m := TenTimesState(phase, input, 2);
    TenTimesReads2(phase, input);
    BinaryAt(m, Multiply(Position, Immediate, Position), input, 10, 16);
  }

  lemma TenTimesStep3(phase: int, input: int)
    ensures Step(TenTimesState(phase, input, 3)) == Next(TenTimesState(phase, input, 4))
  {
    DecodeEncode(Add(Position, Position, Position));
    var m := TenTimesState(phase, input, 3);
    assert Read(m.mem, 8) == Ok(1) && Read(m.mem, 9) == Ok(16) && Read(m.mem, 10) == Ok(15);
    assert Read(m.mem, 11) == Ok(15) && Read(m.mem, 16) == Ok(10 * input) && Read(m.mem, 15) == Ok(phase);
  }

  lemma TenTimesStep4(phase: int, input: int)
    ensures Step(TenTimesState(phase, input, 4)) == Next(TenTimesState(phase, input, 5))
  {
    DecodeEncode(Output(Position));
    var m := TenTimesState(phase, input, 4);
    assert Read(m.mem, 12) == Ok(4) && Read(m.mem, 13) == Ok(15) && Read(m.mem, 15) == Ok(10 * input + phase);
  }

  lemma TenTimesStep5(phase: int, input: int)
    ensures Step(TenTimesState(phase, input, 5)) == Stop(TenTimesState(phase, input, 5), Halted)
  {
    var m := TenTimesState(phase, input, 5);
    assert Read(m.mem, 14) == Ok(99);
    HaltAt(m);
  }

  /** Six steps from the start, the first test program has halted. */
  lemma TenTimesRun(phase: int, input: int)
    ensures Run(TenTimesState(phase, input, 0), 6) == (TenTimesState(phase, input, 5), Halted)
  {
    TenTimesStep0(phase, input);
    TenTimesStep1(phase, input);
    TenTimesStep2(phase, input);
    TenTimesStep3(phase, input);
    TenTimesStep4(phase, input);
    TenTimesStep5(phase, input);
    var m5 := TenTimesState(phase, input, 5);
    RunNext(TenTimesState(phase, input, 0), TenTimesState(phase, input, 1), 6);
    RunNext(TenTimesState(phase, input, 1), TenTimesState(phase, input, 2), 5);
    RunNext(TenTimesState(phase, input, 2), TenTimesState(phase, input, 3), 4);
    RunNext(TenTimesState(phase, input, 3), TenTimesState(phase, input, 4), 3);
    RunNext(TenTimesState(phase, input, 4), m5, 2);
    RunStop(m5, m5, Halted, 1);
  }

  /** What it has written by then: the one number. */
  lemma TenTimesOutputs(phase: int, input: int)
    ensures Outputs(TenTimesState(phase, input, 5).io.log) == [10 * input + phase]
  {
    var log := TenTimesState(phase, input, 5).io.log;
    assert log == [Prompted, Prompted, Wrote(10 * input + phase)];
    assert [Prompted][..0] == [];
    assert Outputs([Prompted]) == [];
    assert [Prompted, Prompted][..1] == [Prompted];
    assert Outputs([Prompted, Prompted]) == [];
    assert log[..2] == [Prompted, Prompted];
  }

  /** The first test program outputs ten times its input plus its phase. */
  lemma TenTimesPlusPhaseStage(phase: int, input: int)
    requires I64_MIN <= 10 * input + phase <= I64_MAX
    ensures Stage(TenTimesPlusPhase, phase, input, 6) == Ok(10 * input + phase)
  {
    TenTimesRun(phase, input);
    TenTimesOutputs(phase, input);
    ParseOutput([10 * input + phase], I64_MIN, I64_MAX);
  }

  /** With phases 4,3,2,1,0 its chain outputs 43210, the test's maximum. */
  lemma TenTimesPlusPhaseChain()
    ensures Chain(TenTimesPlusPhase, [4, 3, 2, 1, 0], 6) == Ok(43210)
  {
    TenTimesPlusPhaseStage(4, 0);
    TenTimesPlusPhaseStage(3, 4);
    TenTimesPlusPhaseStage(2, 43);
    TenTimesPlusPhaseStage(1, 432);
    TenTimesPlusPhaseStage(0, 4321);
    assert [4, 3, 2, 1, 0][1..] == [3, 2, 1, 0];
    assert [3, 2, 1, 0][1..] == [2, 1, 0];
    assert [2, 1, 0][1..] == [1, 0];
    assert [1, 0][1..] == [0];
  }
}
