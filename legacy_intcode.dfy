/**
 * The first Intcode interpreter (crate `intcode` at the top of the
 * repository): flat `i32` memory that is the program slice itself, two
 * parameter modes, and no relative base. Instructions are executed in place
 * on the caller's slice.
 *
 * Reads come from one side (`ReadNumber`) and prompts and writes go to the
 * other (`WriteNumber`); both are scripted in `Io`. Indexing the slice outside
 * its bounds is a Rust panic; it is the `Panicked` outcome here.
 */
module LegacyIntcode {
  import opened Common

  datatype Error =
    | ProgramParseError
    | InvalidParameterMode
    | InvalidOpCode
    | IndexOutOfRange
    | EOF
    | IntParse
    | IoError
    | RecvError
    | SendError

  // =====================================================================
  // Program text
  // =====================================================================

  /** Every token must be an `i32`; the first one that is not fails the whole program. */
  function ParseTokens(tokens: seq<string>): (r: Result<seq<int>, Error>)
    ensures r.Ok? <==> forall i :: 0 <= i < |tokens| ==> ParseI32(tokens[i]).Some?
    ensures r.Ok? ==> |r.value| == |tokens|
    ensures r.Ok? ==> forall i :: 0 <= i < |tokens| ==> ParseI32(tokens[i]) == Some(r.value[i])
    ensures r.Err? ==> r.error == ProgramParseError
  {
    if |tokens| == 0 then Ok([])
    else match ParseI32(tokens[0])
      case None => Err(ProgramParseError)
      case Some(v) =>
        match ParseTokens(tokens[1..])
        case Err(e) => Err(e)
        case Ok(vs) =>
          assert forall i :: 1 <= i < |tokens| ==> tokens[i] == tokens[1..][i - 1];
          Ok([v] + vs)
  }

  /** What `parse_program` returns: the trimmed text split on commas, each piece an `i32`. */
  function ProgramOf(input: string): Result<seq<int>, Error>
  {
    ParseTokens(Split(Trim(input), ','))
  }

  /** The numbers already pushed, in front of what the rest of the tokens parse to. */
  function Pushed(v: seq<int>, rest: Result<seq<int>, Error>): Result<seq<int>, Error>
  {
    match rest
    case Err(e) => Err(e)
    case Ok(w) => Ok(v + w)
  }

  /** Nothing pushed and nothing left to parse leave a result unchanged. */
  lemma PushedEnds(tokens: seq<string>, v: seq<int>)
    ensures Pushed([], ParseTokens(tokens[0..])) == ParseTokens(tokens)
    ensures Pushed(v, ParseTokens(tokens[|tokens|..])) == Ok(v)
  {
    assert tokens[0..] == tokens;
    var all := ParseTokens(tokens);
    assert all.Ok? ==> [] + all.value == all.value;
    assert v + [] == v;
  }

  /** Parsing the tokens from `i` on: the token at `i`, pushed in front of the rest. */
  lemma {:induction false} ParseTokensFrom(tokens: seq<string>, v: seq<int>, i: nat)
    requires i < |tokens|
    ensures ParseI32(tokens[i]).None? ==> Pushed(v, ParseTokens(tokens[i..])) == Err(ProgramParseError)
    ensures ParseI32(tokens[i]).Some? ==>
      Pushed(v, ParseTokens(tokens[i..])) == Pushed(v + [ParseI32(tokens[i]).value], ParseTokens(tokens[i + 1..]))
  {
    assert tokens[i..][0] == tokens[i] && tokens[i..][1..] == tokens[i + 1..];
    var rest := ParseTokens(tokens[i + 1..]);
    if ParseI32(tokens[i]).Some? && rest.Ok? {
      var x := ParseI32(tokens[i]).value;
      assert v + ([x] + rest.value) == (v + [x]) + rest.value;
    }
  }

  /** `parse_program`: pushes each parsed token in turn, stopping at the first bad one. */
  method ParseProgram(input: string) returns (r: Result<seq<int>, Error>)
    ensures r == ProgramOf(input)
  {
    var tokens := Split(Trim(input), ',');
    var v: seq<int> := [];
    var i := 0;
    PushedEnds(tokens, v);
    while i < |tokens|
      invariant 0 <= i <= |tokens|
      invariant ProgramOf(input) == Pushed(v, ParseTokens(tokens[i..]))
    {
      var num := ParseI32(tokens[i]);
      ParseTokensFrom(tokens, v, i);
      if num.None? {
        return Err(ProgramParseError);
      }
      v := v + [num.value];
      i := i + 1;
    }
    PushedEnds(tokens, v);
    r := Ok(v);
  }

  lemma TokensOfRendered(program: seq<int>)
    requires forall i :: 0 <= i < |program| ==> I32_MIN <= program[i] <= I32_MAX
    ensures ParseTokens(Rendered(program)) == Ok(program)
  {
    var parts := Rendered(program);
    forall i | 0 <= i < |program| ensures ParseI32(parts[i]) == Some(program[i]) {
      ParseShow(program[i], true, I32_MIN, I32_MAX);
    }
    var r := ParseTokens(parts);
    assert r.Ok?;
    assert forall i :: 0 <= i < |program| ==> r.value[i] == program[i];
    assert r.value == program;
  }

  /** Parsing the text of any program of `i32` values gives that program back. */
  lemma ProgramTextRoundTrip(program: seq<int>)
    requires |program| > 0
    requires forall i :: 0 <= i < |program| ==> I32_MIN <= program[i] <= I32_MAX
    ensures ProgramOf(ProgramText(program)) == Ok(program)
  {
    TextOfRendered(program);
    TokensOfRendered(program);
  }

  // The unit tests of `parse_program`.

  lemma ParseEmptyText()
    ensures ProgramOf("") == Err(ProgramParseError)
  {
    assert Trim("") == "";
    assert Split("", ',') == [""];
  }

  lemma TurtleToken()
    ensures Split("turtle", ',') == ["turtle"]
    ensures ParseI32("turtle").None?
  {
    SplitNoSeparator("turtle", {','});
    assert !IsDigit('t');
  }

  lemma ParseWord()
    ensures ProgramOf("turtle") == Err(ProgramParseError)
  {
    TrimNoWhitespace("turtle");
    TurtleToken();
  }

  lemma ParseShortPrograms()
    ensures ProgramOf("0") == Ok([0])
    ensures ProgramOf("1,2") == Ok([1, 2])
  {
    ProgramTextRoundTrip([0]);
    ProgramTextRoundTrip([1, 2]);
    RenderedExamples();
  }

  // =====================================================================
  // Instruction decoding
  // =====================================================================

  datatype ParameterMode = Position | Immediate

  /** Destinations are always addresses, so only sources carry a mode. */
  datatype Opcode =
    | Add(src1: ParameterMode, src2: ParameterMode)
    | Multiply(src1: ParameterMode, src2: ParameterMode)
    | Input
    | Output(src: ParameterMode)
    | JumpIfTrue(comparand: ParameterMode, target: ParameterMode)
    | JumpIfFalse(comparand: ParameterMode, target: ParameterMode)
    | LessThan(src1: ParameterMode, src2: ParameterMode)
    | Equals(src1: ParameterMode, src2: ParameterMode)
    | Exit

  function ModeDigit(mode: ParameterMode): nat
  {
    match mode
    case Position => 0
    case Immediate => 1
  }

  /** `parse_parameter_mode`: only 0 and 1 are modes here. */
  function ParseParameterMode(digit: int): (r: Result<ParameterMode, Error>)
    ensures r.Ok? <==> digit == 0 || digit == 1
    ensures r.Ok? ==> ModeDigit(r.value) == digit
    ensures r.Err? ==> r.error == InvalidParameterMode
  {
    match digit
    case 0 => Ok(Position)
    case 1 => Ok(Immediate)
    case _ => Err(InvalidParameterMode)
  }

  predicate IsOpcodeNumber(code: int)
  {
    1 <= code <= 8 || code == 99
  }

  /** How many parameter modes the opcode with this number takes: Input takes none. */
  function ModeCount(code: int): nat
  {
    match code
    case 3 => 0
    case 4 => 1
    case 99 => 0
    case _ => 2
  }

  /** `10^(2+n) - 1` for the mode counts that occur. */
  function MaxWord(n: nat): int
  {
    if n == 0 then 99 else if n == 1 then 999 else 9999
  }

  /** Digit `k` of the modes: `instruction / 100 % 10` or `instruction / 1000 % 10`. */
  function ModeDigitOf(instruction: int, k: nat): int
    requires k < 2
  {
    TRem(TDiv(instruction, if k == 0 then 100 else 1000), 10)
  }

  /** The first `n` modes, in operand order; the first bad digit is the error. */
  function ParseModes(instruction: int, n: nat): (r: Result<seq<ParameterMode>, Error>)
    requires n <= 2
    ensures r.Ok? ==> |r.value| == n
    ensures r.Ok? <==> forall k :: 0 <= k < n ==> 0 <= ModeDigitOf(instruction, k) <= 1
    ensures r.Ok? ==> forall k :: 0 <= k < n ==> ModeDigit(r.value[k]) == ModeDigitOf(instruction, k)
    ensures r.Err? ==> r.error == InvalidParameterMode
  {
    if n == 0 then Ok([])
    else match ParseModes(instruction, n - 1)
      case Err(e) => Err(e)
      case Ok(first) =>
        match ParseParameterMode(ModeDigitOf(instruction, n - 1))
        case Err(e) => Err(e)
        case Ok(mode) => Ok(first + [mode])
  }

  function BuildOpcode(code: int, modes: seq<ParameterMode>): Opcode
    requires IsOpcodeNumber(code) && |modes| == ModeCount(code)
  {
    match code
    case 1 => Add(modes[0], modes[1])
    case 2 => Multiply(modes[0], modes[1])
    case 3 => Input
    case 4 => Output(modes[0])
    case 5 => JumpIfTrue(modes[0], modes[1])
    case 6 => JumpIfFalse(modes[0], modes[1])
    case 7 => LessThan(modes[0], modes[1])
    case 8 => Equals(modes[0], modes[1])
    case _ => Exit
  }

  /**
   * `parse_instruction`: the opcode number is `instruction % 100`
   * (truncating), its modes are read in operand order, and a word above
   * `10^(2+n) - 1` is rejected. Unlike the 2019 machine, the error carries no
   * code.
   */
  function ParseInstruction(instruction: int): (r: Result<Opcode, Error>)
    ensures !IsOpcodeNumber(TRem(instruction, 100)) ==> r == Err(InvalidOpCode)
    ensures IsOpcodeNumber(TRem(instruction, 100)) ==>
      var n := ModeCount(TRem(instruction, 100));
      if exists k :: 0 <= k < n && !(0 <= ModeDigitOf(instruction, k) <= 1) then
        r == Err(InvalidParameterMode)
      else if instruction > MaxWord(n) then
        r == Err(InvalidOpCode)
      else r.Ok? && OpcodeNumber(r.value) == TRem(instruction, 100)
  {
    var code := TRem(instruction, 100);
    if !IsOpcodeNumber(code) then Err(InvalidOpCode)
    else match ParseModes(instruction, ModeCount(code))
      case Err(e) => Err(e)
      case Ok(modes) =>
        if instruction > MaxWord(ModeCount(code)) then Err(InvalidOpCode)
        else Ok(BuildOpcode(code, modes))
  }

  function OpcodeNumber(op: Opcode): int
  {
    match op
    case Add(_, _) => 1
    case Multiply(_, _) => 2
    case Input => 3
    case Output(_) => 4
    case JumpIfTrue(_, _) => 5
    case JumpIfFalse(_, _) => 6
    case LessThan(_, _) => 7
    case Equals(_, _) => 8
    case Exit => 99
  }

  function Modes(op: Opcode): seq<ParameterMode>
  {
    match op
    case Add(a, b) => [a, b]
    case Multiply(a, b) => [a, b]
    case Input => []
    case Output(a) => [a]
    case JumpIfTrue(a, b) => [a, b]
    case JumpIfFalse(a, b) => [a, b]
    case LessThan(a, b) => [a, b]
    case Equals(a, b) => [a, b]
    case Exit => []
  }

  /** The canonical instruction word of an opcode. */
  function Encode(op: Opcode): int
  {
    var ms := Modes(op);
    OpcodeNumber(op)
    + (if |ms| > 0 then 100 * ModeDigit(ms[0]) else 0)
    + (if |ms| > 1 then 1000 * ModeDigit(ms[1]) else 0)
  }

  lemma EncodeDigits(op: Opcode)
    ensures var w := Encode(op);
      TRem(w, 100) == OpcodeNumber(op) && 0 < w <= MaxWord(|Modes(op)|)
      && forall k :: 0 <= k < |Modes(op)| ==> ModeDigitOf(w, k) == ModeDigit(Modes(op)[k])
  {
    var w := Encode(op);
    var ms := Modes(op);
    var d0 := if |ms| > 0 then ModeDigit(ms[0]) else 0;
    var d1 := if |ms| > 1 then ModeDigit(ms[1]) else 0;
    assert w == OpcodeNumber(op) + 100 * d0 + 1000 * d1;
    assert w / 100 == d0 + 10 * d1;
    assert w / 1000 == d1;
  }

  /** Decoding the canonical word of any opcode gives that opcode. */
  lemma DecodeEncode(op: Opcode)
    ensures ParseInstruction(Encode(op)) == Ok(op)
  {
    EncodeDigits(op);
    var w := Encode(op);
    assert |Modes(op)| == ModeCount(OpcodeNumber(op));
    var r := ParseModes(w, ModeCount(OpcodeNumber(op)));
    assert r.Ok?;
    forall k | 0 <= k < |Modes(op)| ensures r.value[k] == Modes(op)[k] {
      var a, b := r.value[k], Modes(op)[k];
      assert ModeDigit(a) == ModeDigit(b);
    }
    assert r.value == Modes(op);
  }

  /** A word that decodes is the canonical word of what it decodes to. */
  lemma EncodeDecode(instruction: int)
    requires ParseInstruction(instruction).Ok?
    ensures Encode(ParseInstruction(instruction).value) == instruction
  {
    var op := ParseInstruction(instruction).value;
    var code := TRem(instruction, 100);
    var ms := ParseModes(instruction, ModeCount(code)).value;
    assert op == BuildOpcode(code, ms);
    assert Modes(op) == ms;
    assert instruction > 0;
    var h := instruction / 100;
    assert instruction == code + 100 * h;
    var n := ModeCount(code);
    var d0 := if n > 0 then ModeDigit(ms[0]) else 0;
    var d1 := if n > 1 then ModeDigit(ms[1]) else 0;
    assert n > 0 ==> d0 == h % 10;
    assert n > 1 ==> d1 == (instruction / 1000) % 10 && instruction / 1000 == h / 10;
    assert h == d0 + 10 * d1;
  }

  /**
   * The mode digit 2 is not a mode here; Input takes no mode at all, so any
   * digit above it (103) is rejected by the maximum-value check.
   */
  lemma DecodeExamples()
    ensures ParseInstruction(1002) == Ok(Multiply(Position, Immediate))
    ensures ParseInstruction(204) == Err(InvalidParameterMode)
    ensures ParseInstruction(103) == Err(InvalidOpCode)
    ensures ParseInstruction(1104) == Err(InvalidOpCode)
    ensures ParseInstruction(-1) == Err(InvalidOpCode)
  {
    assert ModeDigitOf(1002, 0) == 0 && ModeDigitOf(1002, 1) == 1;
    assert ModeDigitOf(204, 0) == 2;
    assert ModeDigitOf(1104, 0) == 1;
  }

  // =====================================================================
  // Memory access on the slice
  // =====================================================================

  /** A failure of the interpreter: a returned error, or a Rust panic on an index outside the slice. */
  datatype Fault = Raised(error: Error) | Panic

  /** `mem[index]`. */
  function Cell(mem: seq<int>, index: int): (r: Result<int, Fault>)
    ensures r.Ok? <==> 0 <= index < |mem|
    ensures r.Ok? ==> r.value == mem[index]
    ensures r.Err? ==> r.error == Panic
  {
    if 0 <= index < |mem| then Ok(mem[index]) else Err(Panic)
  }

  /** `get_usize`: the cell at `index` used as an index, which must not be negative. */
  function GetUsize(mem: seq<int>, index: int): (r: Result<nat, Fault>)
    ensures r.Ok? <==> 0 <= index < |mem| && mem[index] >= 0
    ensures r.Ok? ==> r.value == mem[index]
    ensures r.Err? ==> (r.error == Panic <==> !(0 <= index < |mem|))
    ensures r.Err? && 0 <= index < |mem| ==> r.error == Raised(IndexOutOfRange)
  {
    match Cell(mem, index)
    case Err(f) => Err(f)
    case Ok(v) => if v < 0 then Err(Raised(IndexOutOfRange)) else Ok(v)
  }

  /** `load`: `mem[mem[index]]` in position mode, `mem[index]` in immediate mode. */
  function Load(mem: seq<int>, index: int, mode: ParameterMode): (r: Result<int, Fault>)
    ensures mode == Immediate ==> r == Cell(mem, index)
    ensures mode == Position && GetUsize(mem, index).Ok? ==> r == Cell(mem, mem[index])
    ensures mode == Position && GetUsize(mem, index).Err? ==> r == Err(GetUsize(mem, index).error)
  {
    match mode
    case Immediate => Cell(mem, index)
    case Position =>
      match GetUsize(mem, index)
      case Err(f) => Err(f)
      case Ok(a) => Cell(mem, a)
  }

  // =====================================================================
  // Input and output
  // =====================================================================

  datatype Event = Prompted | Wrote(value: int)

  /**
   * The reader and the writer: the numbers the reader will give, the error it
   * returns once they run out, whether the writer fails (and how), and the log
   * of prompts and written numbers.
   */
  datatype Io = Io(input: seq<int>, endOfInput: Error, writeError: Option<Error>, log: seq<Event>)

  function PromptForNumber(io: Io): Io
  {
    io.(log := io.log + [Prompted])
  }

  function ReadNumber(io: Io): (Result<int, Error>, Io)
  {
    if |io.input| == 0 then (Err(io.endOfInput), io)
    else (Ok(io.input[0]), io.(input := io.input[1..]))
  }

  function WriteNumber(io: Io, num: int): Result<Io, Error>
  {
    if io.writeError.Some? then Err(io.writeError.value)
    else Ok(io.(log := io.log + [Wrote(num)]))
  }

  // =====================================================================
  // Execution, as functions
  // =====================================================================

  datatype Machine = Machine(mem: seq<int>, pc: nat, io: Io)

  datatype Status = Halted | Failed(error: Error) | Panicked | Running

  function FaultStatus(f: Fault): Status
  {
    match f
    case Raised(e) => Failed(e)
    case Panic => Panicked
  }

  datatype Transition = Next(next: Machine) | Stop(last: Machine, status: Status)

  function Combine(op: Opcode, x: int, y: int): int
  {
    match op
    case Add(_, _) => x + y
    case Multiply(_, _) => x * y
    case LessThan(_, _) => if x < y then 1 else 0
    case _ => if x == y then 1 else 0
  }

  predicate IsBinary(op: Opcode)
  {
    op.Add? || op.Multiply? || op.LessThan? || op.Equals?
  }

  predicate IsJump(op: Opcode)
  {
    op.JumpIfTrue? || op.JumpIfFalse?
  }

  /**
   * The destination index is read first, then the two sources; a sum or
   * product outside `i32` panics (the debug build checks overflow), and so
   * does a store into a destination past the end of the slice.
   */
  function Binary(m: Machine, op: Opcode, a: ParameterMode, b: ParameterMode): Transition
  {
    match GetUsize(m.mem, m.pc + 3)
    case Err(f) => Stop(m, FaultStatus(f))
    case Ok(dst) =>
      match Load(m.mem, m.pc + 1, a)
      case Err(f) => Stop(m, FaultStatus(f))
      case Ok(x) =>
        match Load(m.mem, m.pc + 2, b)
        case Err(f) => Stop(m, FaultStatus(f))
        case Ok(y) =>
          var v := Combine(op, x, y);
          if !(I32_MIN <= v <= I32_MAX) || dst >= |m.mem| then Stop(m, Panicked)
          else Next(m.(mem := m.mem[dst := v], pc := m.pc + 4))
  }

  /** Prompt, resolve the destination, read, then store. */
  function InputOp(m: Machine): Transition
  {
    var m1 := m.(io := PromptForNumber(m.io));
    match GetUsize(m.mem, m.pc + 1)
    case Err(f) => Stop(m1, FaultStatus(f))
    case Ok(dst) =>
      var (value, io) := ReadNumber(m1.io);
      var m2 := m1.(io := io);
      if value.Err? then Stop(m2, Failed(value.error))
      else if dst >= |m.mem| then Stop(m2, Panicked)
      else Next(m2.(mem := m.mem[dst := value.value], pc := m.pc + 2))
  }

  function OutputOp(m: Machine, src: ParameterMode): Transition
  {
    match Load(m.mem, m.pc + 1, src)
    case Err(f) => Stop(m, FaultStatus(f))
    case Ok(v) =>
      match WriteNumber(m.io, v)
      case Err(e) => Stop(m, Failed(e))
      case Ok(io) => Next(m.(io := io, pc := m.pc + 2))
  }

  /** A taken jump to a negative target is an error; an untaken one moves past both operands. */
  function Jump(m: Machine, a: ParameterMode, b: ParameterMode, ifTrue: bool): Transition
  {
    match Load(m.mem, m.pc + 1, a)
    case Err(f) => Stop(m, FaultStatus(f))
    case Ok(x) =>
      if (x != 0) == ifTrue then
        (match Load(m.mem, m.pc + 2, b)
         case Err(f) => Stop(m, FaultStatus(f))
         case Ok(t) => if t < 0 then Stop(m, Failed(IndexOutOfRange)) else Next(m.(pc := t)))
      else Next(m.(pc := m.pc + 3))
  }

  function Execute(m: Machine, op: Opcode): Transition
  {
    match op
    case Add(a, b) => Binary(m, op, a, b)
    case Multiply(a, b) => Binary(m, op, a, b)
    case LessThan(a, b) => Binary(m, op, a, b)
    case Equals(a, b) => Binary(m, op, a, b)
    case Input => InputOp(m)
    case Output(src) => OutputOp(m, src)
    case JumpIfTrue(a, b) => Jump(m, a, b, true)
    case JumpIfFalse(a, b) => Jump(m, a, b, false)
    case Exit => Stop(m, Halted)
  }

  /** One trip round the loop of `execute_inner`: `mem[pc]` panics past the end. */
  function Step(m: Machine): Transition
  {
    match Cell(m.mem, m.pc)
    case Err(f) => Stop(m, FaultStatus(f))
    case Ok(word) =>
      match ParseInstruction(word)
      case Err(e) => Stop(m, Failed(e))
      case Ok(op) => Execute(m, op)
  }

  /** At most `fuel` steps. */
  function Run(m: Machine, fuel: nat): (Machine, Status)
    decreases fuel, 0
  {
    if fuel == 0 then (m, Running)
    else Continue(Step(m), fuel - 1)
  }

  /** After one step: go on with the fuel left, or stop where the step stopped. */
  function Continue(t: Transition, fuel: nat): (Machine, Status)
    decreases fuel, 1
  {
    match t
    case Next(m') => Run(m', fuel)
    case Stop(m', s) => (m', s)
  }

  /** `execute_inner` on a program: the final memory, the outcome and the final I/O. */
  function Execution(program: seq<int>, io: Io, fuel: nat): (seq<int>, Status, Io)
  {
    var (m, s) := Run(Machine(program, 0, io), fuel);
    (m.mem, s, m.io)
  }

  // ---------------------------------------------------------------------
  // Properties of a step and of a run
  // ---------------------------------------------------------------------

  function Decoded(m: Machine): Opcode
    requires 0 <= m.pc < |m.mem| && ParseInstruction(m.mem[m.pc]).Ok?
  {
    ParseInstruction(m.mem[m.pc]).value
  }

  /**
   * The slice is never resized; only Add, Multiply, LessThan, Equals and Input
   * change it, and then only the cell named by `mem[pc+3]` (`mem[pc+1]` for
   * Input), which for a binary operation receives the combined operands,
   * always an `i32`.
   */
  lemma {:induction false} StepWritesOneCell(m: Machine)
    requires Step(m).Next?
    ensures 0 <= m.pc < |m.mem| && ParseInstruction(m.mem[m.pc]).Ok?
    ensures var op := Decoded(m); var m' := Step(m).next;
      |m'.mem| == |m.mem|
      && (!IsBinary(op) && !op.Input? ==> m'.mem == m.mem)
      && (IsBinary(op) ==>
            var dst := m.mem[m.pc + 3];
            var v := Combine(op, Load(m.mem, m.pc + 1, op.src1).value, Load(m.mem, m.pc + 2, op.src2).value);
            0 <= dst < |m.mem| && I32_MIN <= v <= I32_MAX && m'.mem == m.mem[dst := v])
      && (op.Input? ==>
            var dst := m.mem[m.pc + 1];
            0 <= dst < |m.mem| && |m.io.input| > 0 && m'.mem == m.mem[dst := m.io.input[0]])
  {
  }

  /** Non-jumps move past their operands; a jump goes to its target when taken, else 3 on. */
  lemma {:induction false} StepMovesPc(m: Machine)
    requires Step(m).Next?
    ensures 0 <= m.pc < |m.mem| && ParseInstruction(m.mem[m.pc]).Ok?
    ensures var op := Decoded(m); var m' := Step(m).next;
      (IsBinary(op) ==> m'.pc == m.pc + 4)
      && (op.Input? || op.Output? ==> m'.pc == m.pc + 2)
      && (IsJump(op) ==>
            var taken := (Load(m.mem, m.pc + 1, op.comparand).value != 0) == op.JumpIfTrue?;
            m'.pc == if taken then Load(m.mem, m.pc + 2, op.target).value else m.pc + 3)
  {
  }

  /** A step never resizes the slice, and one that stops leaves it as it was. */
  lemma StepKeepsLength(m: Machine)
    ensures Step(m).Next? ==> |Step(m).next.mem| == |m.mem|
    ensures Step(m).Stop? ==> Step(m).last.mem == m.mem
  {
    if Step(m).Next? {
      StepWritesOneCell(m);
    }
  }

  /** A run never resizes the slice. */
  lemma {:induction false} RunKeepsLength(m: Machine, fuel: nat)
    ensures |Run(m, fuel).0.mem| == |m.mem|
    decreases fuel, 0
  {
    if fuel > 0 {
      StepKeepsLength(m);
      ContinueKeepsLength(Step(m), fuel - 1, |m.mem|);
    }
  }

  lemma {:induction false} ContinueKeepsLength(t: Transition, fuel: nat, n: nat)
    requires t.Next? ==> |t.next.mem| == n
    requires t.Stop? ==> |t.last.mem| == n
    ensures |Continue(t, fuel).0.mem| == n
    decreases fuel, 1
  {
    if t.Next? {
      RunKeepsLength(t.next, fuel);
    }
  }

  /** A stopped machine stays stopped: more fuel changes nothing. */
  lemma {:induction false} RunMoreFuel(m: Machine, fuel: nat, extra: nat)
    requires !Run(m, fuel).1.Running?
    ensures Run(m, fuel + extra) == Run(m, fuel)
    decreases fuel, 0
  {
    if fuel > 0 {
      ContinueMoreFuel(Step(m), fuel - 1, extra);
    }
  }

  lemma {:induction false} ContinueMoreFuel(t: Transition, fuel: nat, extra: nat)
    requires !Continue(t, fuel).1.Running?
    ensures Continue(t, fuel + extra) == Continue(t, fuel)
    decreases fuel, 1
  {
    if t.Next? {
      RunMoreFuel(t.next, fuel, extra);
    }
  }

  // =====================================================================
  // `execute_inner`, in place on the caller's slice
  // =====================================================================

  /**
   * The interpreter loop on the caller's array: on return the array holds the
   * memory of the functional run, whatever its outcome (stores made before an
   * error or a panic stay in the slice).
   */
  method ExecuteInner(mem: array<int>, io: Io, fuel: nat) returns (status: Status, ioAfter: Io)
    modifies mem
    ensures (mem[..], status, ioAfter) == Execution(old(mem[..]), io, fuel)
  {
    var pc: nat := 0;
    ioAfter := io;
    var steps := 0;
    while steps < fuel
      invariant 0 <= steps <= fuel
      invariant Run(Machine(old(mem[..]), 0, io), fuel) == Run(Machine(mem[..], pc, ioAfter), fuel - steps)
    {
      ghost var before := Machine(mem[..], pc, ioAfter);
      var stop;
      stop, pc, ioAfter := ExecuteStep(mem, pc, ioAfter);
      if stop.Some? {
        status := stop.value;
        assert Run(before, fuel - steps) == (Machine(mem[..], pc, ioAfter), status);
        return;
      }
      steps := steps + 1;
    }
    status := Running;
  }

  /** One trip round the loop, on the array. */
  method ExecuteStep(mem: array<int>, pc: nat, io: Io) returns (stop: Option<Status>, pc': nat, io': Io)
    modifies mem
    ensures var t := Step(Machine(old(mem[..]), pc, io));
      Machine(mem[..], pc', io') == (if t.Next? then t.next else t.last)
      && (stop.None? <==> t.Next?)
      && (stop.Some? ==> stop.value == t.status)
  {
    pc', io' := pc, io;
    if pc >= mem.Length {
      return Some(Panicked), pc', io';
    }
    var op := ParseInstruction(mem[pc]);
    if op.Err? {
      return Some(Failed(op.error)), pc', io';
    }
    stop := None;
    match op.value {
      case Add(a, b) =>
        stop, pc' := BinaryStep(mem, pc, io, op.value, a, b);
      case Multiply(a, b) =>
        stop, pc' := BinaryStep(mem, pc, io, op.value, a, b);
      case LessThan(a, b) =>
        stop, pc' := BinaryStep(mem, pc, io, op.value, a, b);
      case Equals(a, b) =>
        stop, pc' := BinaryStep(mem, pc, io, op.value, a, b);
      case Input =>
        stop, pc', io' := InputStep(mem, pc, io);
      case Output(src) =>
        stop, pc', io' := OutputStep(mem, pc, io, src);
      case JumpIfTrue(a, b) =>
        stop, pc' := JumpStep(mem, pc, io, a, b, true);
      case JumpIfFalse(a, b) =>
        stop, pc' := JumpStep(mem, pc, io, a, b, false);
      case Exit =>
        stop := Some(Halted);
    }
  }

  method OutputStep(mem: array<int>, pc: nat, io: Io, src: ParameterMode) returns (stop: Option<Status>, pc': nat, io': Io)
    ensures var t := OutputOp(Machine(mem[..], pc, io), src);
      Machine(mem[..], pc', io') == (if t.Next? then t.next else t.last)
      && (stop.None? <==> t.Next?)
      && (stop.Some? ==> stop.value == t.status)
  {
    pc', io' := pc, io;
    var v := Load(mem[..], pc + 1, src);
    if v.Err? {
      return Some(FaultStatus(v.error)), pc', io';
    }
    var w := WriteNumber(io, v.value);
    if w.Err? {
      return Some(Failed(w.error)), pc', io';
    }
    io' := w.value;
    pc' := pc + 2;
    stop := None;
  }

  method BinaryStep(mem: array<int>, pc: nat, io: Io, op: Opcode, a: ParameterMode, b: ParameterMode)
    returns (stop: Option<Status>, pc': nat)
    modifies mem
    ensures var t := Binary(Machine(old(mem[..]), pc, io), op, a, b);
      Machine(mem[..], pc', io) == (if t.Next? then t.next else t.last)
      && (stop.None? <==> t.Next?)
      && (stop.Some? ==> stop.value == t.status)
  {
    pc' := pc;
    var dst := GetUsize(mem[..], pc + 3);
    if dst.Err? {
      return Some(FaultStatus(dst.error)), pc';
    }
    var x := Load(mem[..], pc + 1, a);
    if x.Err? {
      return Some(FaultStatus(x.error)), pc';
    }
    var y := Load(mem[..], pc + 2, b);
    if y.Err? {
      return Some(FaultStatus(y.error)), pc';
    }
    var v := Combine(op, x.value, y.value);
    if !(I32_MIN <= v <= I32_MAX) || dst.value >= mem.Length {
      return Some(Panicked), pc';
    }
    mem[dst.value] := v;
    pc' := pc + 4;
    stop := None;
  }

  method InputStep(mem: array<int>, pc: nat, io: Io) returns (stop: Option<Status>, pc': nat, io': Io)
    modifies mem
    ensures var t := InputOp(Machine(old(mem[..]), pc, io));
      Machine(mem[..], pc', io') == (if t.Next? then t.next else t.last)
      && (stop.None? <==> t.Next?)
      && (stop.Some? ==> stop.value == t.status)
  {
    pc' := pc;
    io' := PromptForNumber(io);
    var dst := GetUsize(mem[..], pc + 1);
    if dst.Err? {
      return Some(FaultStatus(dst.error)), pc', io';
    }
    var read := ReadNumber(io');
    io' := read.1;
    if read.0.Err? {
      return Some(Failed(read.0.error)), pc', io';
    }
    if dst.value >= mem.Length {
      return Some(Panicked), pc', io';
    }
    mem[dst.value] := read.0.value;
    pc' := pc + 2;
    stop := None;
  }

  method JumpStep(mem: array<int>, pc: nat, io: Io, a: ParameterMode, b: ParameterMode, ifTrue: bool)
    returns (stop: Option<Status>, pc': nat)
    ensures var t := Jump(Machine(mem[..], pc, io), a, b, ifTrue);
      Machine(mem[..], pc', io) == (if t.Next? then t.next else t.last)
      && (stop.None? <==> t.Next?)
      && (stop.Some? ==> stop.value == t.status)
  {
    pc' := pc;
    var x := Load(mem[..], pc + 1, a);
    if x.Err? {
      return Some(FaultStatus(x.error)), pc';
    }
    stop := None;
    if (x.value != 0) == ifTrue {
      var t := Load(mem[..], pc + 2, b);
      if t.Err? {
        return Some(FaultStatus(t.error)), pc';
      }
      if t.value < 0 {
        return Some(Failed(IndexOutOfRange)), pc';
      }
      pc' := t.value;
    } else {
      pc' := pc + 3;
    }
  }

  // ---------------------------------------------------------------------
  // The repository's test programs (`execute_no_io`: no input, end of file)
  // ---------------------------------------------------------------------

  function NoIo(): Io
  {
    Io([], EOF, None, [])
  }

  lemma PositionWords()
    ensures ParseInstruction(1) == Ok(Add(Position, Position))
    ensures ParseInstruction(2) == Ok(Multiply(Position, Position))
    ensures ParseInstruction(3) == Ok(Input)
    ensures ParseInstruction(4) == Ok(Output(Position))
    ensures ParseInstruction(99) == Ok(Exit)
  {
    DecodeEncode(Add(Position, Position));
    DecodeEncode(Multiply(Position, Position));
    DecodeEncode(Input);
    DecodeEncode(Output(Position));
    DecodeEncode(Exit);
  }

  /** A step that continues uses up one unit of fuel. */
  lemma {:induction false} RunNext(m: Machine, m': Machine, fuel: nat)
    requires fuel > 0 && Step(m) == Next(m')
    ensures Run(m, fuel) == Run(m', fuel - 1)
  {
  }

  /** A step that stops ends the run, whatever fuel is left. */
  lemma {:induction false} RunStop(m: Machine, m': Machine, s: Status, fuel: nat)
    requires fuel > 0 && Step(m) == Stop(m', s)
    ensures Run(m, fuel) == (m', s)
  {
  }

  /** A decoded arithmetic or comparison instruction whose operands resolve stores and moves on by four. */
  lemma BinaryAt(m: Machine, op: Opcode, dst: nat, x: int, y: int)
    requires 0 <= m.pc < |m.mem| && ParseInstruction(m.mem[m.pc]) == Ok(op) && IsBinary(op)
    requires GetUsize(m.mem, m.pc + 3) == Ok(dst) && dst < |m.mem|
    requires Load(m.mem, m.pc + 1, op.src1) == Ok(x) && Load(m.mem, m.pc + 2, op.src2) == Ok(y)
    requires I32_MIN <= Combine(op, x, y) <= I32_MAX
    ensures Step(m) == Next(m.(mem := m.mem[dst := Combine(op, x, y)], pc := m.pc + 4))
  {
  }

  /** A decoded output instruction whose operand resolves writes it and moves on by two. */
  lemma OutputAt(m: Machine, src: ParameterMode, v: int)
    requires 0 <= m.pc < |m.mem| && ParseInstruction(m.mem[m.pc]) == Ok(Output(src))
    requires Load(m.mem, m.pc + 1, src) == Ok(v) && m.io.writeError.None?
    ensures Step(m) == Next(m.(io := m.io.(log := m.io.log + [Wrote(v)]), pc := m.pc + 2))
  {
  }

  /** A `99` at the program counter halts, leaving the machine as it is. */
  lemma HaltAt(m: Machine)
    requires 0 <= m.pc < |m.mem| && m.mem[m.pc] == 99
    ensures Step(m) == Stop(m, Halted)
  {
    DecodeEncode(Exit);
  }

  /** The one-instruction programs: a store, then `99` at index 4. */
  lemma OneStoreExample(program: seq<int>, result: seq<int>)
    requires |result| >= 5 && result[4] == 99
    requires Step(Machine(program, 0, NoIo())) == Next(Machine(result, 4, NoIo()))
    ensures Execution(program, NoIo(), 2) == (result, Halted, NoIo())
  {
    var m1 := Machine(result, 4, NoIo());
    RunNext(Machine(program, 0, NoIo()), m1, 2);
    HaltAt(m1);
    RunStop(m1, m1, Halted, 1);
  }

  lemma AddExample()
    ensures Execution([1, 0, 0, 0, 99], NoIo(), 2) == ([2, 0, 0, 0, 99], Halted, NoIo())
  {
    DecodeEncode(Add(Position, Position));
    var m := Machine([1, 0, 0, 0, 99], 0, NoIo());
    assert Step(m) == Next(Machine([2, 0, 0, 0, 99], 4, NoIo()));
    OneStoreExample([1, 0, 0, 0, 99], [2, 0, 0, 0, 99]);
  }

  lemma MultiplyExample()
    ensures Execution([2, 3, 0, 3, 99], NoIo(), 2) == ([2, 3, 0, 6, 99], Halted, NoIo())
  {
    DecodeEncode(Multiply(Position, Position));
    var m := Machine([2, 3, 0, 3, 99], 0, NoIo());
    assert Step(m) == Next(Machine([2, 3, 0, 6, 99], 4, NoIo()));
    OneStoreExample([2, 3, 0, 3, 99], [2, 3, 0, 6, 99]);
  }

  lemma SquareExample()
    ensures Execution([2, 4, 4, 5, 99, 0], NoIo(), 2) == ([2, 4, 4, 5, 99, 9801], Halted, NoIo())
  {
    DecodeEncode(Multiply(Position, Position));
    var m := Machine([2, 4, 4, 5, 99, 0], 0, NoIo());
    assert Step(m) == Next(Machine([2, 4, 4, 5, 99, 9801], 4, NoIo()));
    OneStoreExample([2, 4, 4, 5, 99, 0], [2, 4, 4, 5, 99, 9801]);
  }

  lemma SelfModifyingStep()
    ensures Step(Machine([1, 1, 1, 4, 99, 5, 6, 0, 99], 0, NoIo())) == Next(Machine([1, 1, 1, 4, 2, 5, 6, 0, 99], 4, NoIo()))
  {
    DecodeEncode(Add(Position, Position));
  }

  lemma SelfModifiedStep()
    ensures Step(Machine([1, 1, 1, 4, 2, 5, 6, 0, 99], 4, NoIo())) == Next(Machine([30, 1, 1, 4, 2, 5, 6, 0, 99], 8, NoIo()))
  {
    DecodeEncode(Multiply(Position, Position));
  }

  lemma SelfModifyingExample()
    ensures Execution([1, 1, 1, 4, 99, 5, 6, 0, 99], NoIo(), 3) == ([30, 1, 1, 4, 2, 5, 6, 0, 99], Halted, NoIo())
  {
    var m1 := Machine([1, 1, 1, 4, 2, 5, 6, 0, 99], 4, NoIo());
    var m2 := Machine([30, 1, 1, 4, 2, 5, 6, 0, 99], 8, NoIo());
    SelfModifyingStep();
    RunNext(Machine([1, 1, 1, 4, 99, 5, 6, 0, 99], 0, NoIo()), m1, 3);
    SelfModifiedStep();
    RunNext(m1, m2, 2);
    HaltAt(m2);
    RunStop(m2, m2, Halted, 1);
  }

  lemma ImmediateExample()
    ensures Execution([1002, 4, 3, 4, 33], NoIo(), 2) == ([1002, 4, 3, 4, 99], Halted, NoIo())
  {
    DecodeEncode(Multiply(Position, Immediate));
    assert ParseInstruction(1002) == Ok(Multiply(Position, Immediate));
    var m := Machine([1002, 4, 3, 4, 33], 0, NoIo());
    assert Step(m) == Next(Machine([1002, 4, 3, 4, 99], 4, NoIo()));
    OneStoreExample([1002, 4, 3, 4, 33], [1002, 4, 3, 4, 99]);
  }

  lemma EchoReadStep()
    ensures Step(Machine([3, 0, 4, 0, 99], 0, Io([42], EOF, None, []))) == Next(Machine([42, 0, 4, 0, 99], 2, Io([], EOF, None, [Prompted])))
  {
    DecodeEncode(Input);
  }

  lemma EchoWriteStep()
    ensures Step(Machine([42, 0, 4, 0, 99], 2, Io([], EOF, None, [Prompted])))
      == Next(Machine([42, 0, 4, 0, 99], 4, Io([], EOF, None, [Prompted, Wrote(42)])))
  {
    DecodeEncode(Output(Position));
    OutputAt(Machine([42, 0, 4, 0, 99], 2, Io([], EOF, None, [Prompted])), Position, 42);
  }

  /** `3,0,4,0,99` with input 42 prompts once and writes 42. */
  lemma EchoExample()
    ensures Execution([3, 0, 4, 0, 99], Io([42], EOF, None, []), 3) ==
      ([42, 0, 4, 0, 99], Halted, Io([], EOF, None, [Prompted, Wrote(42)]))
  {
    var m1 := Machine([42, 0, 4, 0, 99], 2, Io([], EOF, None, [Prompted]));
    var m2 := Machine([42, 0, 4, 0, 99], 4, Io([], EOF, None, [Prompted, Wrote(42)]));
    EchoReadStep();
    RunNext(Machine([3, 0, 4, 0, 99], 0, Io([42], EOF, None, [])), m1, 3);
    EchoWriteStep();
    RunNext(m1, m2, 2);
    HaltAt(m2);
    RunStop(m2, m2, Halted, 1);
  }

  /** `3,9,8,9,10,9,4,9,99,-1,8`: is the input equal to 8 (position mode)? */
  const EqualsEight: seq<int> := [3, 9, 8, 9, 10, 9, 4, 9, 99, -1, 8]

  /** The machine after each of `EqualsEight`'s instructions, with input 8. */
  function EqualsEightState(k: nat): Machine
  {
    if k == 0 then Machine(EqualsEight, 0, Io([8], EOF, None, []))
    else if k == 1 then Machine(EqualsEight[9 := 8], 2, Io([], EOF, None, [Prompted]))
    else if k == 2 then Machine(EqualsEight[9 := 1], 6, Io([], EOF, None, [Prompted]))
    else Machine(EqualsEight[9 := 1], 8, Io([], EOF, None, [Prompted, Wrote(1)]))
  }

  lemma EqualsEightStep0()
    ensures Step(EqualsEightState(0)) == Next(EqualsEightState(1))
  {
    DecodeEncode(Input);
  }

  lemma EqualsEightStep1()
    ensures Step(EqualsEightState(1)) == Next(EqualsEightState(2))
  {
    DecodeEncode(Equals(Position, Position));
    var m := EqualsEightState(1);
    assert m.mem[2] == 8 && m.mem[3] == 9 && m.mem[4] == 10 && m.mem[5] == 9 && m.mem[9] == 8 && m.mem[10] == 8;
    assert EqualsEight[9 := 8][9 := 1] == EqualsEight[9 := 1];
    BinaryAt(m, Equals(Position, Position), 9, 8, 8);
  }

  lemma EqualsEightStep2()
    ensures Step(EqualsEightState(2)) == Next(EqualsEightState(3))
  {
    DecodeEncode(Output(Position));
    var m := EqualsEightState(2);
    assert m.mem[6] == 4 && m.mem[7] == 9 && m.mem[9] == 1;
    OutputAt(m, Position, 1);
  }

  lemma EqualsEightExample()
    ensures Execution(EqualsEight, Io([8], EOF, None, []), 4).2.log == [Prompted, Wrote(1)]
  {
    EqualsEightStep0();
    RunNext(EqualsEightState(0), EqualsEightState(1), 4);
    EqualsEightStep1();
    RunNext(EqualsEightState(1), EqualsEightState(2), 3);
    EqualsEightStep2();
    RunNext(EqualsEightState(2), EqualsEightState(3), 2);
    HaltAt(EqualsEightState(3));
    RunStop(EqualsEightState(3), EqualsEightState(3), Halted, 1);
  }

  /** A store through an index past the end of the slice panics. */
  lemma StorePastEndPanics()
    ensures Execution([1, 0, 0, 10, 99], NoIo(), 1).1 == Panicked
  {
    PositionWords();
  }

  /** Running off the end of the program panics at the fetch. */
  lemma FetchPastEndPanics()
    ensures Execution([1, 0, 0, 0], NoIo(), 2) == ([2, 0, 0, 0], Panicked, NoIo())
  {
    PositionWords();
    var m := Machine([1, 0, 0, 0], 0, NoIo());
    assert Step(m) == Next(Machine([2, 0, 0, 0], 4, NoIo()));
  }

  /** `65536 * 65536` overflows an `i32`. */
  lemma OverflowPanics()
    ensures Execution([1102, 65536, 65536, 0, 99], NoIo(), 1).1 == Panicked
  {
    DecodeEncode(Multiply(Immediate, Immediate));
    assert ParseInstruction(1102) == Ok(Multiply(Immediate, Immediate));
  }

  /** A taken jump to a negative target is `IndexOutOfRange`. */
  lemma NegativeJumpExample()
    ensures Execution([1105, 1, -1], NoIo(), 1).1 == Failed(IndexOutOfRange)
  {
    DecodeEncode(JumpIfTrue(Immediate, Immediate));
    assert ParseInstruction(1105) == Ok(JumpIfTrue(Immediate, Immediate));
  }
}
