/**
 * The smallest interpreter, from the first day-5 crate: unsigned 32-bit
 * memory, opcodes 1 (add), 2 (multiply) and 99 (halt) only, every operand an
 * address. The program counter only ever moves forwards, so the loop always
 * ends: by halting, by an invalid opcode, or by a Rust panic (an index past the
 * end of the slice, or a debug-build overflow of `u32` arithmetic).
 */
module LegacyDay5 {
  import opened Common

  datatype Error = ProgramParseError | InvalidOpCode | IndexOutOfRange | AnswerNotFound

  // ---------------------------------------------------------------------
  // Program text: split on commas, NOT trimmed, each piece a `u32`
  // ---------------------------------------------------------------------

  function ParseTokens(tokens: seq<string>): (r: Result<seq<int>, Error>)
    ensures r.Ok? <==> forall i :: 0 <= i < |tokens| ==> ParseU32(tokens[i]).Some?
    ensures r.Ok? ==> |r.value| == |tokens|
    ensures r.Ok? ==> forall i :: 0 <= i < |tokens| ==> ParseU32(tokens[i]) == Some(r.value[i])
    ensures r.Err? ==> r.error == ProgramParseError
  {
    if |tokens| == 0 then Ok([])
    else match ParseU32(tokens[0])
      case None => Err(ProgramParseError)
      case Some(v) =>
        match ParseTokens(tokens[1..])
        case Err(e) => Err(e)
        case Ok(vs) =>
          assert forall i :: 1 <= i < |tokens| ==> tokens[i] == tokens[1..][i - 1];
          Ok([v] + vs)
  }

  function ProgramOf(input: string): Result<seq<int>, Error>
  {
    ParseTokens(Split(input, ','))
  }

  /** `parse_program`. */
  method ParseProgram(input: string) returns (r: Result<seq<int>, Error>)
    ensures r == ProgramOf(input)
  {
    var tokens := Split(input, ',');
    var v: seq<int> := [];
    var i := 0;
    while i < |tokens|
      invariant 0 <= i <= |tokens| && |v| == i
      invariant forall j :: 0 <= j < i ==> ParseU32(tokens[j]) == Some(v[j])
    {
      var num := ParseU32(tokens[i]);
      if num.None? {
        return Err(ProgramParseError);
      }
      v := v + [num.value];
      i := i + 1;
    }
    r := Ok(v);
    var expected := ParseTokens(tokens);
    assert expected.Ok?;
    assert forall j :: 0 <= j < |v| ==> expected.value[j] == v[j];
    assert expected.value == v;
  }

  predicate IsU32Memory(mem: seq<int>)
  {
    forall i :: 0 <= i < |mem| ==> 0 <= mem[i] <= U32_MAX
  }

  lemma StoreKeepsU32(mem: seq<int>, dst: int, v: int)
    requires IsU32Memory(mem) && 0 <= dst < |mem| && 0 <= v <= U32_MAX
    ensures IsU32Memory(mem[dst := v])
  {
  }

  /** A parsed program holds only `u32` values. */
  lemma ParsedIsU32(input: string)
    requires ProgramOf(input).Ok?
    ensures IsU32Memory(ProgramOf(input).value)
  {
    var tokens := Split(input, ',');
    var v := ProgramOf(input).value;
    forall i | 0 <= i < |v| ensures 0 <= v[i] <= U32_MAX {
      assert ParseU32(tokens[i]) == Some(v[i]);
    }
  }

  /** The text of any nonempty program of `u32` values parses back to it. */
  lemma ProgramTextRoundTrip(program: seq<int>)
    requires |program| > 0 && IsU32Memory(program)
    ensures ProgramOf(ProgramText(program)) == Ok(program)
  {
    TextOfRendered(program);
    var parts := Rendered(program);
    forall i | 0 <= i < |program| ensures ParseU32(parts[i]) == Some(program[i]) {
      ParseShow(program[i], false, 0, U32_MAX);
    }
    var r := ParseTokens(parts);
    assert r.Ok?;
    assert forall i :: 0 <= i < |program| ==> r.value[i] == program[i];
    assert r.value == program;
  }

  // The unit tests of `parse_program`, and what the missing trim means.

  lemma ParseEmptyText()
    ensures ProgramOf("") == Err(ProgramParseError)
  {
    assert Split("", ',') == [""];
  }

  lemma TurtleToken()
    ensures Split("turtle", ',') == ["turtle"]
    ensures ParseU32("turtle").None?
  {
    SplitNoSeparator("turtle", {','});
    assert !IsDigit('t');
  }

  lemma ParseWord()
    ensures ProgramOf("turtle") == Err(ProgramParseError)
  {
    TurtleToken();
  }

  lemma ParseShortPrograms()
    ensures ProgramOf("0") == Ok([0])
    ensures ProgramOf("1,2") == Ok([1, 2])
  {
    ProgramTextRoundTrip([0]);
    ProgramTextRoundTrip([1, 2]);
    RenderedExamples();
  }

  /** Negative numbers are not `u32`, and a trailing newline is not removed. */
  lemma RejectedTexts()
    ensures ProgramOf("-1") == Err(ProgramParseError)
    ensures ProgramOf("1\n") == Err(ProgramParseError)
  {
    SplitNoSeparator("-1", {','});
    SplitNoSeparator("1\n", {','});
    assert !IsDigit('-') && !IsDigit('\n');
    assert !AllDigits("1\n");
  }

  // ---------------------------------------------------------------------
  // Execution
  // ---------------------------------------------------------------------

  /** How `execute` ends. */
  datatype Outcome = Halted | Failed(error: Error) | Panicked

  /**
   * `execute` from `pc`: the final memory and the outcome. Opcode 1 stores
   * `mem[mem[pc+1]] + mem[mem[pc+2]]` at `mem[pc+3]`, opcode 2 the product, and
   * both move on by 4. `get_usize` cannot fail on `u32` cells.
   */
  function Run(mem: seq<int>, pc: nat): (seq<int>, Outcome)
    requires IsU32Memory(mem)
    decreases |mem| - pc
  {
    if pc >= |mem| then (mem, Panicked)
    else if mem[pc] == 1 || mem[pc] == 2 then
      if pc + 3 >= |mem| then (mem, Panicked)
      else
        var src1, src2, dst := mem[pc + 1], mem[pc + 2], mem[pc + 3];
        if src1 >= |mem| || src2 >= |mem| then (mem, Panicked)
        else
          var v := if mem[pc] == 1 then mem[src1] + mem[src2] else mem[src1] * mem[src2];
          if v > U32_MAX || dst >= |mem| then (mem, Panicked)
          else Run(mem[dst := v], pc + 4)
    else if mem[pc] == 99 then (mem, Halted)
    else (mem, Failed(InvalidOpCode))
  }

  function Execution(program: seq<int>): (seq<int>, Outcome)
    requires IsU32Memory(program)
  {
    Run(program, 0)
  }

  /** A run keeps the slice's length and keeps every cell a `u32`. */
  lemma {:induction false} RunKeepsShape(mem: seq<int>, pc: nat)
    requires IsU32Memory(mem)
    ensures |Run(mem, pc).0| == |mem| && IsU32Memory(Run(mem, pc).0)
    decreases |mem| - pc
  {
    if pc < |mem| && (mem[pc] == 1 || mem[pc] == 2) && pc + 3 < |mem| {
      var src1, src2, dst := mem[pc + 1], mem[pc + 2], mem[pc + 3];
      if src1 < |mem| && src2 < |mem| {
        var v := if mem[pc] == 1 then mem[src1] + mem[src2] else mem[src1] * mem[src2];
        if v <= U32_MAX && dst < |mem| {
          RunKeepsShape(mem[dst := v], pc + 4);
        }
      }
    }
  }

  /** `IndexOutOfRange` is never returned: every `u32` converts to a `usize`. */
  lemma {:induction false} NeverIndexOutOfRange(mem: seq<int>, pc: nat)
    requires IsU32Memory(mem)
    ensures Run(mem, pc).1 == Halted || Run(mem, pc).1 == Panicked || Run(mem, pc).1 == Failed(InvalidOpCode)
    decreases |mem| - pc
  {
    if pc < |mem| && (mem[pc] == 1 || mem[pc] == 2) && pc + 3 < |mem| {
      var src1, src2, dst := mem[pc + 1], mem[pc + 2], mem[pc + 3];
      if src1 < |mem| && src2 < |mem| {
        var v := if mem[pc] == 1 then mem[src1] + mem[src2] else mem[src1] * mem[src2];
        if v <= U32_MAX && dst < |mem| {
          NeverIndexOutOfRange(mem[dst := v], pc + 4);
        }
      }
    }
  }

  /** A halted run stopped on a 99 that the run did not overwrite afterwards. */
  lemma {:induction false} HaltedAtExit(mem: seq<int>, pc: nat)
    requires IsU32Memory(mem)
    requires Run(mem, pc).1 == Halted
    ensures exists p :: pc <= p < |Run(mem, pc).0| && Run(mem, pc).0[p] == 99
    decreases |mem| - pc
  {
    if mem[pc] == 99 {
      assert Run(mem, pc).0[pc] == 99;
    } else {
      var src1, src2, dst := mem[pc + 1], mem[pc + 2], mem[pc + 3];
      var v := if mem[pc] == 1 then mem[src1] + mem[src2] else mem[src1] * mem[src2];
      HaltedAtExit(mem[dst := v], pc + 4);
    }
  }

  /** `execute`, in place; the loop ends because `pc` grows by 4 each round. */
  method Execute(mem: array<int>) returns (outcome: Outcome)
    requires IsU32Memory(mem[..])
    modifies mem
    ensures IsU32Memory(old(mem[..]))
    ensures (mem[..], outcome) == Execution(old(mem[..]))
  {
    var pc: nat := 0;
    while true
      invariant IsU32Memory(mem[..])
      invariant Run(old(mem[..]), 0) == Run(mem[..], pc)
      decreases mem.Length - pc
    {
      if pc >= mem.Length {
        return Panicked;
      }
      var op := mem[pc];
      if op == 1 || op == 2 {
        if pc + 3 >= mem.Length {
          return Panicked;
        }
        var stored := ArithmeticStep(mem, pc);
        if !stored {
          return Panicked;
        }
        pc := pc + 4;
      } else if op == 99 {
        return Halted;
      } else {
        return Failed(InvalidOpCode);
      }
    }
  }

  /**
   * One add or multiply at `pc`: either it stores its result and the run goes
   * on four cells later, or it panics and memory is as it was.
   */
  method ArithmeticStep(mem: array<int>, pc: nat) returns (stored: bool)
    requires IsU32Memory(mem[..])
    requires pc + 3 < mem.Length && (mem[pc] == 1 || mem[pc] == 2)
    modifies mem
    ensures IsU32Memory(mem[..])
    ensures stored ==> Run(old(mem[..]), pc) == Run(mem[..], pc + 4)
    ensures !stored ==> mem[..] == old(mem[..]) && Run(old(mem[..]), pc) == (mem[..], Panicked)
  {
    var src1, src2, dst := mem[pc + 1], mem[pc + 2], mem[pc + 3];
    if src1 >= mem.Length || src2 >= mem.Length {
      return false;
    }
    var v := if mem[pc] == 1 then mem[src1] + mem[src2] else mem[src1] * mem[src2];
    if v > U32_MAX || dst >= mem.Length {
      return false;
    }
    ghost var before := mem[..];
    RunStores(before, pc, v);
    mem[dst] := v;
    assert mem[..] == before[dst := v];
    return true;
  }

  /** The run through an add or multiply that stores `v`. */
  lemma RunStores(mem: seq<int>, pc: nat, v: int)
    requires IsU32Memory(mem)
    requires pc + 3 < |mem| && (mem[pc] == 1 || mem[pc] == 2)
    requires mem[pc + 1] < |mem| && mem[pc + 2] < |mem| && mem[pc + 3] < |mem|
    requires v == if mem[pc] == 1 then mem[mem[pc + 1]] + mem[mem[pc + 2]] else mem[mem[pc + 1]] * mem[mem[pc + 2]]
    requires v <= U32_MAX
    ensures IsU32Memory(mem[mem[pc + 3] := v])
    ensures Run(mem, pc) == Run(mem[mem[pc + 3] := v], pc + 4)
  {
    assert 0 <= mem[mem[pc + 1]] && 0 <= mem[mem[pc + 2]];
    StoreKeepsU32(mem, mem[pc + 3], v);
  }

  // The unit tests of `execute`.

  lemma ExecuteExamples()
    ensures Execution([1, 0, 0, 0, 99]) == ([2, 0, 0, 0, 99], Halted)
    ensures Execution([2, 3, 0, 3, 99]) == ([2, 3, 0, 6, 99], Halted)
    ensures Execution([2, 4, 4, 5, 99, 0]) == ([2, 4, 4, 5, 99, 9801], Halted)
  {
    assert [1, 0, 0, 0, 99][0 := 2] == [2, 0, 0, 0, 99];
    assert [2, 3, 0, 3, 99][3 := 6] == [2, 3, 0, 6, 99];
    assert [2, 4, 4, 5, 99, 0][5 := 9801] == [2, 4, 4, 5, 99, 9801];
  }

  lemma SelfModifyingExample()
    ensures Execution([1, 1, 1, 4, 99, 5, 6, 0, 99]) == ([30, 1, 1, 4, 2, 5, 6, 0, 99], Halted)
  {
    var m0 := [1, 1, 1, 4, 99, 5, 6, 0, 99];
    var m1 := [1, 1, 1, 4, 2, 5, 6, 0, 99];
    var m2 := [30, 1, 1, 4, 2, 5, 6, 0, 99];
    assert m0[4 := 2] == m1;
    assert Run(m0, 0) == Run(m1, 4);
    assert m1[0 := 30] == m2;
    assert Run(m1, 4) == Run(m2, 8);
  }

  /** Opcodes of the later machines are invalid here. */
  lemma InputIsInvalid()
    ensures Execution([3, 0, 99]) == ([3, 0, 99], Failed(InvalidOpCode))
  {
  }

  /** `65536 * 65536` does not fit in a `u32`: the debug build panics. */
  lemma OverflowPanics()
    ensures Execution([2, 5, 5, 0, 99, 0x1_0000]) == ([2, 5, 5, 0, 99, 0x1_0000], Panicked)
  {
    var mem := [2, 5, 5, 0, 99, 0x1_0000];
    assert mem[5] * mem[5] > U32_MAX;
  }
}
