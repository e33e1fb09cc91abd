/**
 * The Intcode virtual machine of 2019 (crate `intcode`): program parsing,
 * instruction decoding, the sparse 64-bit memory, the fetch/execute loop with
 * a program counter and a relative base, and the ASCII line adapter.
 *
 * The CPU talks to the outside world through a `Port`: the numbers it will be
 * given, the error a read returns once they run out (EOF for a console, a
 * receive error for a closed channel, a user-initiated exit for an interactive
 * controller), and the log of prompts and outputs it produced. The loop of the
 * source need not terminate, so every run takes `fuel`, the number of
 * instructions it may execute; a run that uses it all up is `Running`.
 */
module Intcode {
  import opened Common

  datatype Error =
    | ProgramParseError
    | InvalidParameterMode
    | InvalidOpCode(code: int)
    | IndexOutOfRange
    | EOF
    | IntParse
    | IoError
    | RecvError
    | SendError
    | UserInitiatedExit

  // =====================================================================
  // Program text
  // =====================================================================

  /** Every token must be an `i64`; the first one that is not fails the whole program. */
  function ParseTokens(tokens: seq<string>): (r: Result<seq<int>, Error>)
    ensures r.Ok? <==> forall i :: 0 <= i < |tokens| ==> ParseI64(tokens[i]).Some?
    ensures r.Ok? ==> |r.value| == |tokens|
    ensures r.Ok? ==> forall i :: 0 <= i < |tokens| ==> ParseI64(tokens[i]) == Some(r.value[i])
    ensures r.Err? ==> r.error == ProgramParseError
  {
    if |tokens| == 0 then Ok([])
    else match ParseI64(tokens[0])
      case None => Err(ProgramParseError)
      case Some(v) =>
        match ParseTokens(tokens[1..])
        case Err(e) => Err(e)
        case Ok(vs) =>
          assert forall i :: 1 <= i < |tokens| ==> tokens[i] == tokens[1..][i - 1];
          Ok([v] + vs)
  }

  /** What `parse_program` returns: the trimmed text split on commas, each piece an `i64`. */
  function ProgramOf(input: string): Result<seq<int>, Error>
  {
    ParseTokens(Split(Trim(input), ','))
  }

  /** The numbers already pushed, in front of what the rest of the tokens parse to. */
  function Pushed(v: seq<int>, rest: Result<seq<int>, Error>): Result<seq<int>, Error>
  {
    match rest
    case Err(e) => Err(e)
    case Ok(w) => Ok(v + w)
  }

  /** Parsing the tokens from `i` on: the token at `i`, pushed in front of the rest. */
  lemma {:induction false} ParseTokensFrom(tokens: seq<string>, v: seq<int>, i: nat)
    requires i < |tokens|
    ensures ParseI64(tokens[i]).None? ==> Pushed(v, ParseTokens(tokens[i..])) == Err(ProgramParseError)
    ensures ParseI64(tokens[i]).Some? ==>
      Pushed(v, ParseTokens(tokens[i..])) == Pushed(v + [ParseI64(tokens[i]).value], ParseTokens(tokens[i + 1..]))
  {
    assert tokens[i..][0] == tokens[i] && tokens[i..][1..] == tokens[i + 1..];
    var rest := ParseTokens(tokens[i + 1..]);
    if ParseI64(tokens[i]).Some? && rest.Ok? {
      var x := ParseI64(tokens[i]).value;
      assert v + ([x] + rest.value) == (v + [x]) + rest.value;
    }
  }

  /** Nothing pushed and nothing left to parse leave a result unchanged. */
  lemma PushedEnds(tokens: seq<string>, v: seq<int>)
    ensures Pushed([], ParseTokens(tokens[0..])) == ParseTokens(tokens)
    ensures Pushed(v, ParseTokens(tokens[|tokens|..])) == Ok(v)
  {
    assert tokens[0..] == tokens;
    var all := ParseTokens(tokens);
    assert all.Ok? ==> [] + all.value == all.value;
    assert v + [] == v;
  }

  /** `parse_program`: pushes each parsed token in turn, stopping at the first bad one. */
  method ParseProgram(input: string) returns (r: Result<seq<int>, Error>)
    ensures r == ProgramOf(input)
  {
    var tokens := Split(Trim(input), ',');
    var v: seq<int> := [];
    var i := 0;
    PushedEnds(tokens, v);
    while i < |tokens|
      invariant 0 <= i <= |tokens|
      invariant ProgramOf(input) == Pushed(v, ParseTokens(tokens[i..]))
    {
      var num := ParseI64(tokens[i]);
      ParseTokensFrom(tokens, v, i);
      if num.None? {
        return Err(ProgramParseError);
      }
      v := v + [num.value];
      i := i + 1;
    }
    PushedEnds(tokens, v);
    r := Ok(v);
  }

  lemma TokensOfRendered(program: seq<int>)
    requires forall i :: 0 <= i < |program| ==> I64_MIN <= program[i] <= I64_MAX
    ensures ParseTokens(Rendered(program)) == Ok(program)
  {
    var parts := Rendered(program);
    forall i | 0 <= i < |program| ensures ParseI64(parts[i]) == Some(program[i]) {
      ParseShow(program[i], true, I64_MIN, I64_MAX);
    }
    var r := ParseTokens(parts);
    assert r.Ok?;
    assert forall i :: 0 <= i < |program| ==> r.value[i] == program[i];
    assert r.value == program;
  }

  /** Parsing the text of any program of `i64` values gives that program back. */
  lemma ProgramTextRoundTrip(program: seq<int>)
    requires |program| > 0
    requires forall i :: 0 <= i < |program| ==> I64_MIN <= program[i] <= I64_MAX
    ensures ProgramOf(ProgramText(program)) == Ok(program)
  {
    TextOfRendered(program);
    TokensOfRendered(program);
  }

  // The unit tests of `parse_program`.

  lemma ParseEmptyText()
    ensures ProgramOf("") == Err(ProgramParseError)
  {
    assert Trim("") == "";
    assert Split("", ',') == [""];
  }

  lemma TurtleToken()
    ensures Split("turtle", ',') == ["turtle"]
    ensures ParseI64("turtle").None?
  {
    SplitNoSeparator("turtle", {','});
    assert !IsDigit('t');
  }

  lemma ParseWord()
    ensures ProgramOf("turtle") == Err(ProgramParseError)
  {
    TrimNoWhitespace("turtle");
    TurtleToken();
  }

  lemma ParseSingleWord()
    ensures ProgramOf("0") == Ok([0])
  {
    ProgramTextRoundTrip([0]);
    RenderedExamples();
  }

  lemma ParseTwoWords()
    ensures ProgramOf("1,2") == Ok([1, 2])
  {
    ProgramTextRoundTrip([1, 2]);
    RenderedExamples();
  }

  // =====================================================================
  // Instruction decoding
  // =====================================================================

  datatype ParameterMode = Position | Immediate | Relative

  datatype Opcode =
    | Add(src1: ParameterMode, src2: ParameterMode, dst: ParameterMode)
    | Multiply(src1: ParameterMode, src2: ParameterMode, dst: ParameterMode)
    | Input(dst: ParameterMode)
    | Output(src: ParameterMode)
    | JumpIfTrue(comparand: ParameterMode, target: ParameterMode)
    | JumpIfFalse(comparand: ParameterMode, target: ParameterMode)
    | LessThan(src1: ParameterMode, src2: ParameterMode, dst: ParameterMode)
    | Equals(src1: ParameterMode, src2: ParameterMode, dst: ParameterMode)
    | AdjustsRelativeBase(mode: ParameterMode)
    | Exit

  /** The digit that selects a mode in an instruction word. */
  function ModeDigit(mode: ParameterMode): nat
  {
    match mode
    case Position => 0
    case Immediate => 1
    case Relative => 2
  }

  /** `parse_parameter_mode`. */
  function ParseParameterMode(digit: int): (r: Result<ParameterMode, Error>)
    ensures r.Ok? <==> 0 <= digit <= 2
    ensures r.Ok? ==> ModeDigit(r.value) == digit
    ensures r.Err? ==> r.error == InvalidParameterMode
  {
    match digit
    case 0 => Ok(Position)
    case 1 => Ok(Immediate)
    case 2 => Ok(Relative)
    case _ => Err(InvalidParameterMode)
  }

  predicate IsOpcodeNumber(code: int)
  {
    1 <= code <= 9 || code == 99
  }

  /** How many parameter modes the opcode with this number takes. */
  function ModeCount(code: int): nat
  {
    match code
    case 1 => 3
    case 2 => 3
    case 3 => 1
    case 4 => 1
    case 5 => 2
    case 6 => 2
    case 7 => 3
    case 8 => 3
    case 9 => 1
    case _ => 0
  }

  /** `10^(2+n) - 1`, the largest word an opcode with `n` modes accepts. */
  function MaxWord(n: nat): int
  {
    if n == 0 then 99 else if n == 1 then 999 else if n == 2 then 9999 else 99999
  }

  /** Digit `k` of the modes: `instruction / 100 % 10`, `/ 1000 % 10` or `/ 10000 % 10`. */
  function ModeDigitOf(instruction: int, k: nat): int
    requires k < 3
  {
    var divisor := if k == 0 then 100 else if k == 1 then 1000 else 10000;
    TRem(TDiv(instruction, divisor), 10)
  }

  /** The first `n` modes of the word, in operand order; the first bad digit is the error. */
  function ParseModes(instruction: int, n: nat): (r: Result<seq<ParameterMode>, Error>)
    requires n <= 3
    ensures r.Ok? ==> |r.value| == n
    ensures r.Ok? <==> forall k :: 0 <= k < n ==> 0 <= ModeDigitOf(instruction, k) <= 2
    ensures r.Ok? ==> forall k :: 0 <= k < n ==> ModeDigit(r.value[k]) == ModeDigitOf(instruction, k)
    ensures r.Err? ==> r.error == InvalidParameterMode
  {
    if n == 0 then Ok([])
    else match ParseModes(instruction, n - 1)
      case Err(e) => Err(e)
      case Ok(first) =>
        match ParseParameterMode(ModeDigitOf(instruction, n - 1))
        case Err(e) => Err(e)
        case Ok(mode) => Ok(first + [mode])
  }

  function BuildOpcode(code: int, modes: seq<ParameterMode>): Opcode
    requires IsOpcodeNumber(code) && |modes| == ModeCount(code)
  {
    match code
    case 1 => Add(modes[0], modes[1], modes[2])
    case 2 => Multiply(modes[0], modes[1], modes[2])
    case 3 => Input(modes[0])
    case 4 => Output(modes[0])
    case 5 => JumpIfTrue(modes[0], modes[1])
    case 6 => JumpIfFalse(modes[0], modes[1])
    case 7 => LessThan(modes[0], modes[1], modes[2])
    case 8 => Equals(modes[0], modes[1], modes[2])
    case 9 => AdjustsRelativeBase(modes[0])
    case _ => Exit
  }

  /**
   * `parse_instruction`: the opcode number is `instruction % 100` (truncating,
   * so a negative word never names an opcode); its modes are then read in
   * operand order; and a word above `10^(2+n) - 1` is rejected whole.
   */
  function ParseInstruction(instruction: int): (r: Result<Opcode, Error>)
    ensures !IsOpcodeNumber(TRem(instruction, 100)) ==>
      r == Err(InvalidOpCode(TRem(instruction, 100)))
    ensures IsOpcodeNumber(TRem(instruction, 100)) ==>
      var n := ModeCount(TRem(instruction, 100));
      if exists k :: 0 <= k < n && !(0 <= ModeDigitOf(instruction, k) <= 2) then
        r == Err(InvalidParameterMode)
      else if instruction > MaxWord(n) then
        r == Err(InvalidOpCode(instruction))
      else r.Ok? && OpcodeNumber(r.value) == TRem(instruction, 100)
  {
    var code := TRem(instruction, 100);
    if !IsOpcodeNumber(code) then Err(InvalidOpCode(code))
    else match ParseModes(instruction, ModeCount(code))
      case Err(e) => Err(e)
      case Ok(modes) =>
        if instruction > MaxWord(ModeCount(code)) then Err(InvalidOpCode(instruction))
        else Ok(BuildOpcode(code, modes))
  }

  function OpcodeNumber(op: Opcode): int
  {
    match op
    case Add(_, _, _) => 1
    case Multiply(_, _, _) => 2
    case Input(_) => 3
    case Output(_) => 4
    case JumpIfTrue(_, _) => 5
    case JumpIfFalse(_, _) => 6
    case LessThan(_, _, _) => 7
    case Equals(_, _, _) => 8
    case AdjustsRelativeBase(_) => 9
    case Exit => 99
  }

  /** The operand modes of an opcode, in order. */
  function Modes(op: Opcode): seq<ParameterMode>
  {
    match op
    case Add(a, b, c) => [a, b, c]
    case Multiply(a, b, c) => [a, b, c]
    case Input(a) => [a]
    case Output(a) => [a]
    case JumpIfTrue(a, b) => [a, b]
    case JumpIfFalse(a, b) => [a, b]
    case LessThan(a, b, c) => [a, b, c]
    case Equals(a, b, c) => [a, b, c]
    case AdjustsRelativeBase(a) => [a]
    case Exit => []
  }

  /** The canonical instruction word of an opcode: its number plus one digit per mode. */
  function Encode(op: Opcode): int
  {
    var ms := Modes(op);
    OpcodeNumber(op)
    + (if |ms| > 0 then 100 * ModeDigit(ms[0]) else 0)
    + (if |ms| > 1 then 1000 * ModeDigit(ms[1]) else 0)
    + (if |ms| > 2 then 10000 * ModeDigit(ms[2]) else 0)
  }

  lemma ModesShape(op: Opcode)
    ensures |Modes(op)| == ModeCount(OpcodeNumber(op))
    ensures BuildOpcode(OpcodeNumber(op), Modes(op)) == op
  {
  }

  /** The digits of `c + 100 d0 + 1000 d1 + 10000 d2` for a two-digit `c` and single digits. */
  lemma DigitsWord(c: int, d0: int, d1: int, d2: int)
    requires 0 <= c <= 99 && 0 <= d0 <= 9 && 0 <= d1 <= 9 && 0 <= d2 <= 9
    ensures var w := c + 100 * d0 + 1000 * d1 + 10000 * d2;
      w % 100 == c && (w / 100) % 10 == d0 && (w / 1000) % 10 == d1 && (w / 10000) % 10 == d2
  {
    var w := c + 100 * d0 + 1000 * d1 + 10000 * d2;
    assert w / 100 == d0 + 10 * d1 + 100 * d2;
    assert w / 1000 == d1 + 10 * d2;
    assert w / 10000 == d2;
  }

  lemma EncodeDigits(op: Opcode)
    ensures var w := Encode(op);
      TRem(w, 100) == OpcodeNumber(op) && 0 < w <= MaxWord(|Modes(op)|)
      && forall k :: 0 <= k < |Modes(op)| ==> ModeDigitOf(w, k) == ModeDigit(Modes(op)[k])
  {
    var ms := Modes(op);
    var d0 := if |ms| > 0 then ModeDigit(ms[0]) else 0;
    var d1 := if |ms| > 1 then ModeDigit(ms[1]) else 0;
    var d2 := if |ms| > 2 then ModeDigit(ms[2]) else 0;
    assert Encode(op) == OpcodeNumber(op) + 100 * d0 + 1000 * d1 + 10000 * d2;
    DigitsWord(OpcodeNumber(op), d0, d1, d2);
  }

  /** Decoding the canonical word of any opcode gives that opcode. */
  lemma DecodeEncode(op: Opcode)
    ensures ParseInstruction(Encode(op)) == Ok(op)
  {
    EncodeDigits(op);
    ModesShape(op);
    var w := Encode(op);
    var r := ParseModes(w, ModeCount(OpcodeNumber(op)));
    assert r.Ok?;
    forall k | 0 <= k < |Modes(op)| ensures r.value[k] == Modes(op)[k] {
      var a, b := r.value[k], Modes(op)[k];
      assert ModeDigit(a) == ModeDigit(b);
    }
    assert r.value == Modes(op);
  }

  /** A positive word no larger than `MaxWord(n)` is its opcode number plus its first `n` mode digits. */
  lemma WordDigits(w: int, n: nat)
    requires n <= 3 && 0 < w <= MaxWord(n)
    ensures w == TRem(w, 100)
      + (if n > 0 then 100 * ModeDigitOf(w, 0) else 0)
      + (if n > 1 then 1000 * ModeDigitOf(w, 1) else 0)
      + (if n > 2 then 10000 * ModeDigitOf(w, 2) else 0)
  {
    var h := w / 100;
    assert w == w % 100 + 100 * h;
    assert w / 1000 == h / 10 && w / 10000 == h / 100;
    assert h == h % 10 + 10 * ((h / 10) % 10) + 100 * (h / 100);
    assert h / 100 == (h / 100) % 10;
  }

  /** A word that decodes is the canonical word of what it decodes to. */
  lemma EncodeDecode(instruction: int)
    requires ParseInstruction(instruction).Ok?
    ensures Encode(ParseInstruction(instruction).value) == instruction
  {
    var op := ParseInstruction(instruction).value;
    var code := TRem(instruction, 100);
    var n := ModeCount(code);
    var ms := ParseModes(instruction, n).value;
    assert op == BuildOpcode(code, ms);
    assert Modes(op) == ms && OpcodeNumber(op) == code;
    WordDigits(instruction, n);
  }

  /**
   * Rust's `%` matters here: `-1 % 100` is `-1`, so the word -1 is an invalid
   * opcode, where a Euclidean remainder (99) would have decoded it as `Exit`.
   */
  lemma NegativeWordExample()
    ensures ParseInstruction(-1) == Err(InvalidOpCode(-1))
    ensures ParseInstruction(-199) == Err(InvalidOpCode(-99))
  {
  }

  /** The maximum-value check rejects a word with a digit beyond its operands. */
  lemma MaxWordExamples()
    ensures ParseInstruction(1002) == Ok(Multiply(Position, Immediate, Position))
    ensures ParseInstruction(1104) == Err(InvalidOpCode(1104))
    ensures ParseInstruction(399) == Err(InvalidOpCode(399))
    ensures ParseInstruction(303) == Err(InvalidParameterMode)
    ensures ParseInstruction(100001) == Err(InvalidOpCode(100001))
  {
    assert ModeDigitOf(1002, 0) == 0 && ModeDigitOf(1002, 1) == 1 && ModeDigitOf(1002, 2) == 0;
    assert ModeDigitOf(1104, 0) == 1;
    assert ModeDigitOf(303, 0) == 3;
    assert ModeDigitOf(100001, 0) == 0 && ModeDigitOf(100001, 1) == 0 && ModeDigitOf(100001, 2) == 0;
  }

  // =====================================================================
  // Memory: sparse, auto-extending, negative addresses are errors
  // =====================================================================

  type Memory = map<int, int>

  /** `load_raw`. */
  function Read(mem: Memory, index: int): Result<int, Error>
  {
    if index < 0 then Err(IndexOutOfRange)
    else if index in mem then Ok(mem[index])
    else Ok(0)
  }

  /** `store_raw`. */
  function Write(mem: Memory, index: int, value: int): Result<Memory, Error>
  {
    if index < 0 then Err(IndexOutOfRange) else Ok(mem[index := value])
  }

  /** A store is seen by the next load of the same cell and changes no other cell. */
  lemma ReadAfterWrite(mem: Memory, index: int, value: int, other: int)
    requires Write(mem, index, value).Ok?
    ensures Read(Write(mem, index, value).value, index) == Ok(value)
    ensures other != index ==> Read(Write(mem, index, value).value, other) == Read(mem, other)
  {
  }

  /** Negative addresses fail both ways; every other address can be read. */
  lemma NegativeAddresses(mem: Memory, index: int, value: int)
    ensures Read(mem, index).Err? <==> index < 0
    ensures Write(mem, index, value).Err? <==> index < 0
    ensures index < 0 ==> Read(mem, index) == Err(IndexOutOfRange) && Write(mem, index, value) == Err(IndexOutOfRange)
  {
  }

  /** The memory `create` builds: cell i holds word i of the program. */
  function Loaded(program: seq<int>): Memory
  {
    map i | 0 <= i < |program| :: program[i]
  }

  /** The program's words are where `create` put them, and every other cell reads 0. */
  lemma LoadedReads(program: seq<int>, index: int)
    requires index >= 0
    ensures index < |program| ==> Read(Loaded(program), index) == Ok(program[index])
    ensures index >= |program| ==> Read(Loaded(program), index) == Ok(0)
  {
  }

  // =====================================================================
  // Ports: the CPU's I/O
  // =====================================================================

  datatype Event = Prompted | Wrote(value: int)

  /**
   * The CPU's I/O capability as data: numbers still to be read, what a read
   * returns once they are exhausted, whether writes fail (and how), and the
   * log of prompts and written numbers.
   */
  datatype Port = Port(input: seq<int>, endOfInput: Error, writeError: Option<Error>, log: seq<Event>)

  function PromptForNumber(io: Port): Port
  {
    io.(log := io.log + [Prompted])
  }

  function ReadNumber(io: Port): (Result<int, Error>, Port)
  {
    if |io.input| == 0 then (Err(io.endOfInput), io)
    else (Ok(io.input[0]), io.(input := io.input[1..]))
  }

  function WriteNumber(io: Port, num: int): Result<Port, Error>
  {
    if io.writeError.Some? then Err(io.writeError.value)
    else Ok(io.(log := io.log + [Wrote(num)]))
  }

  /** The numbers written so far, in order. */
  function Outputs(log: seq<Event>): seq<int>
  {
    if |log| == 0 then []
    else Outputs(log[..|log| - 1]) + (if log[|log| - 1].Wrote? then [log[|log| - 1].value] else [])
  }

  // =====================================================================
  // Execution, as functions
  // =====================================================================

  datatype Machine = Machine(pc: int, relativeBase: int, mem: Memory, io: Port)

  /** `CpuState::create`. */
  function Initial(program: seq<int>, io: Port): Machine
  {
    Machine(0, 0, Loaded(program), io)
  }

  /** `load_effective_address`: the address operand `k` of the current instruction names. */
  function EffectiveAddress(m: Machine, k: int, mode: ParameterMode): Result<int, Error>
  {
    match mode
    case Position => Read(m.mem, m.pc + k)
    case Immediate => Ok(m.pc + k)
    case Relative =>
      match Read(m.mem, m.pc + k)
      case Err(e) => Err(e)
      case Ok(offset) => Ok(m.relativeBase + offset)
  }

  /** `load`: the value of operand `k`. */
  function LoadOperand(m: Machine, k: int, mode: ParameterMode): Result<int, Error>
  {
    match EffectiveAddress(m, k, mode)
    case Err(e) => Err(e)
    case Ok(a) => Read(m.mem, a)
  }

  /** `store`: the memory after writing to the cell operand `k` names. */
  function StoreOperand(m: Machine, k: int, mode: ParameterMode, value: int): Result<Memory, Error>
  {
    match EffectiveAddress(m, k, mode)
    case Err(e) => Err(e)
    case Ok(a) => Write(m.mem, a, value)
  }

  /** An operand's value in each mode, as the puzzle defines it. */
  lemma OperandModes(m: Machine, k: int)
    requires m.pc + k >= 0
    ensures LoadOperand(m, k, Immediate) == Read(m.mem, m.pc + k)
    ensures Read(m.mem, m.pc + k).Ok? ==>
      LoadOperand(m, k, Position) == Read(m.mem, Read(m.mem, m.pc + k).value)
      && LoadOperand(m, k, Relative) == Read(m.mem, m.relativeBase + Read(m.mem, m.pc + k).value)
  {
  }

  datatype Status = Halted | Failed(error: Error) | Running

  /** What one trip round the `execute_inner` loop does. */
  datatype Transition = Next(next: Machine) | Stop(last: Machine, status: Status)

  /** The value Add, Multiply, LessThan and Equals store. */
  function Combine(op: Opcode, x: int, y: int): int
  {
    match op
    case Add(_, _, _) => x + y
    case Multiply(_, _, _) => x * y
    case LessThan(_, _, _) => if x < y then 1 else 0
    case _ => if x == y then 1 else 0
  }

  predicate IsBinary(op: Opcode)
  {
    op.Add? || op.Multiply? || op.LessThan? || op.Equals?
  }

  predicate IsJump(op: Opcode)
  {
    op.JumpIfTrue? || op.JumpIfFalse?
  }

  /** Execute a decoded instruction. */
  function Execute(m: Machine, op: Opcode): Transition
  {
    match op
    case Add(a, b, c) => Binary(m, op, a, b, c)
    case Multiply(a, b, c) => Binary(m, op, a, b, c)
    case LessThan(a, b, c) => Binary(m, op, a, b, c)
    case Equals(a, b, c) => Binary(m, op, a, b, c)
    case Input(dst) => InputOp(m, dst)
    case Output(src) => OutputOp(m, src)
    case JumpIfTrue(a, b) => Jump(m, a, b, true)
    case JumpIfFalse(a, b) => Jump(m, a, b, false)
    case AdjustsRelativeBase(mode) => AdjustOp(m, mode)
    case Exit => Stop(m, Halted)
  }

  /** Prompt, read, then store: a failed read or store still leaves the port advanced. */
  function InputOp(m: Machine, dst: ParameterMode): Transition
  {
    var (value, io) := ReadNumber(PromptForNumber(m.io));
    var m1 := m.(io := io);
    if value.Err? then Stop(m1, Failed(value.error))
    else
      match StoreOperand(m1, 1, dst, value.value)
      case Err(e) => Stop(m1, Failed(e))
      case Ok(mem) => Next(m1.(mem := mem, pc := m.pc + 2))
  }

  function OutputOp(m: Machine, src: ParameterMode): Transition
  {
    match LoadOperand(m, 1, src)
    case Err(e) => Stop(m, Failed(e))
    case Ok(v) =>
      match WriteNumber(m.io, v)
      case Err(e) => Stop(m, Failed(e))
      case Ok(io) => Next(m.(io := io, pc := m.pc + 2))
  }

  function AdjustOp(m: Machine, mode: ParameterMode): Transition
  {
    match LoadOperand(m, 1, mode)
    case Err(e) => Stop(m, Failed(e))
    case Ok(v) => Next(m.(relativeBase := m.relativeBase + v, pc := m.pc + 2))
  }

  /** Both sources are loaded (first, then second) before the destination is resolved. */
  function Binary(m: Machine, op: Opcode, a: ParameterMode, b: ParameterMode, c: ParameterMode): Transition
  {
    match LoadOperand(m, 1, a)
    case Err(e) => Stop(m, Failed(e))
    case Ok(x) =>
      match LoadOperand(m, 2, b)
      case Err(e) => Stop(m, Failed(e))
      case Ok(y) =>
        match StoreOperand(m, 3, c, Combine(op, x, y))
        case Err(e) => Stop(m, Failed(e))
        case Ok(mem) => Next(m.(mem := mem, pc := m.pc + 4))
  }

  /** A jump is taken when the comparand is non-zero (`ifTrue`) or zero (otherwise). */
  function Jump(m: Machine, a: ParameterMode, b: ParameterMode, ifTrue: bool): Transition
  {
    match LoadOperand(m, 1, a)
    case Err(e) => Stop(m, Failed(e))
    case Ok(x) =>
      if (x != 0) == ifTrue then
        (match LoadOperand(m, 2, b)
         case Err(e) => Stop(m, Failed(e))
         case Ok(t) => Next(m.(pc := t)))
      else Next(m.(pc := m.pc + 3))
  }

  /** Fetch, decode and execute one instruction. */
  function Step(m: Machine): Transition
  {
    match Read(m.mem, m.pc)
    case Err(e) => Stop(m, Failed(e))
    case Ok(word) =>
      match ParseInstruction(word)
      case Err(e) => Stop(m, Failed(e))
      case Ok(op) => Execute(m, op)
  }

  /** At most `fuel` steps of `execute_inner`. */
  function Run(m: Machine, fuel: nat): (Machine, Status)
    decreases fuel, 0
  {
    if fuel == 0 then (m, Running)
    else Continue(Step(m), fuel - 1)
  }

  /** After one step: go on with the fuel left, or stop where the step stopped. */
  function Continue(t: Transition, fuel: nat): (Machine, Status)
    decreases fuel, 1
  {
    match t
    case Next(m') => Run(m', fuel)
    case Stop(m', s) => (m', s)
  }

  /** `CpuState::execute`: a user-initiated exit counts as a normal halt. */
  function Finish(s: Status): (r: Status)
    ensures r == Halted <==> s == Halted || s == Failed(UserInitiatedExit)
    ensures s.Running? <==> r.Running?
    ensures r.Failed? ==> r == s
  {
    if s == Failed(UserInitiatedExit) then Halted else s
  }

  // ---------------------------------------------------------------------
  // Properties of a step
  // ---------------------------------------------------------------------

  function Decoded(m: Machine): Opcode
    requires Read(m.mem, m.pc).Ok? && ParseInstruction(Read(m.mem, m.pc).value).Ok?
  {
    ParseInstruction(Read(m.mem, m.pc).value).value
  }

  /**
   * How the program counter moves: every instruction other than a jump moves
   * past itself and its operands; a jump goes to its second operand when taken
   * and past its two operands when not.
   */
  lemma {:induction false} StepMovesPc(m: Machine)
    requires Step(m).Next?
    ensures Read(m.mem, m.pc).Ok? && ParseInstruction(Read(m.mem, m.pc).value).Ok?
    ensures var op := Decoded(m); var m' := Step(m).next;
      (!IsJump(op) ==> m'.pc == m.pc + 1 + |Modes(op)|)
      && (IsJump(op) ==>
            var taken := (LoadOperand(m, 1, op.comparand).value != 0) == op.JumpIfTrue?;
            m'.pc == if taken then LoadOperand(m, 2, op.target).value else m.pc + 3)
  {
  }

  /**
   * Only Add, Multiply, LessThan, Equals and Input change memory, and then only
   * the one cell their last operand names; only opcode 9 changes the relative base.
   */
  lemma {:induction false} StepWritesOneCell(m: Machine)
    requires Step(m).Next?
    ensures Read(m.mem, m.pc).Ok? && ParseInstruction(Read(m.mem, m.pc).value).Ok?
    ensures var op := Decoded(m); var m' := Step(m).next;
      (IsBinary(op) || op.Input?) ==>
        var k := |Modes(op)|;
        var a := EffectiveAddress(m, k, Modes(op)[k - 1]);
        a.Ok? && a.value >= 0
        && m'.mem == m.mem[a.value := m'.mem[a.value]]
        && (IsBinary(op) ==> m'.mem[a.value] == Combine(op, LoadOperand(m, 1, op.src1).value, LoadOperand(m, 2, op.src2).value))
        && (op.Input? ==> |m.io.input| > 0 && m'.mem[a.value] == m.io.input[0])
  {
    var op := Decoded(m);
    if op.Input? {
      var m1 := m.(io := ReadNumber(PromptForNumber(m.io)).1);
      assert EffectiveAddress(m1, 1, op.dst) == EffectiveAddress(m, 1, op.dst);
    }
  }

  lemma {:induction false} StepKeepsOtherState(m: Machine)
    requires Step(m).Next?
    ensures Read(m.mem, m.pc).Ok? && ParseInstruction(Read(m.mem, m.pc).value).Ok?
    ensures var op := Decoded(m); var m' := Step(m).next;
      (!IsBinary(op) && !op.Input? ==> m'.mem == m.mem)
      && (!op.AdjustsRelativeBase? ==> m'.relativeBase == m.relativeBase)
      && (op.AdjustsRelativeBase? ==> m'.relativeBase == m.relativeBase + LoadOperand(m, 1, op.mode).value)
  {
  }

  /**
   * I/O: Input prompts once and consumes exactly one number, Output appends
   * exactly the value of its operand, and nothing else touches the port.
   */
  lemma {:induction false} StepIo(m: Machine)
    requires Step(m).Next?
    ensures Read(m.mem, m.pc).Ok? && ParseInstruction(Read(m.mem, m.pc).value).Ok?
    ensures var op := Decoded(m); var m' := Step(m).next;
      (op.Input? ==> |m.io.input| > 0 && m'.io == m.io.(input := m.io.input[1..], log := m.io.log + [Prompted]))
      && (op.Output? ==> m'.io == m.io.(log := m.io.log + [Wrote(LoadOperand(m, 1, op.src).value)]))
      && (!op.Input? && !op.Output? ==> m'.io == m.io)
  {
  }

  /** A step that stops always says why: it halted or it failed. */
  lemma StepStopsFinished(m: Machine)
    ensures Step(m).Stop? ==> !Step(m).status.Running?
  {
  }

  /** Halting and halting on error both stop the machine for good: more fuel changes nothing. */
  lemma {:induction false} RunMoreFuel(m: Machine, fuel: nat, extra: nat)
    requires !Run(m, fuel).1.Running?
    ensures Run(m, fuel + extra) == Run(m, fuel)
    decreases fuel, 0
  {
    if fuel > 0 {
      ContinueMoreFuel(Step(m), fuel - 1, extra);
    }
  }

  lemma {:induction false} ContinueMoreFuel(t: Transition, fuel: nat, extra: nat)
    requires !Continue(t, fuel).1.Running?
    ensures Continue(t, fuel + extra) == Continue(t, fuel)
    decreases fuel, 1
  {
    if t.Next? {
      RunMoreFuel(t.next, fuel, extra);
    }
  }

  /** A run can be split wherever the machine is still running. */
  lemma {:induction false} RunSplit(m: Machine, a: nat, b: nat)
    requires Run(m, a).1.Running?
    ensures Run(m, a + b) == Run(Run(m, a).0, b)
    decreases a, 0
  {
    if a > 0 {
      StepStopsFinished(m);
      ContinueSplit(Step(m), a - 1, b);
    }
  }

  lemma {:induction false} ContinueSplit(t: Transition, a: nat, b: nat)
    requires Continue(t, a).1.Running?
    requires t.Stop? ==> !t.status.Running?
    ensures Continue(t, a + b) == Run(Continue(t, a).0, b)
    decreases a, 1
  {
    RunSplit(t.next, a, b);
  }

  // =====================================================================
  // The CPU object
  // =====================================================================

  /** `CpuState`: the registers, the memory map and the port it talks to. */
  class CpuState {
    var pc: int
    var relativeBase: int
    var mem: Memory
    var io: Port

    function State(): Machine
      reads this
    {
      Machine(pc, relativeBase, mem, io)
    }

    /** `create`: each word of the program at its index, both registers zero. */
    constructor Create(program: seq<int>, port: Port)
      ensures State() == Initial(program, port)
    {
      var memMap: Memory := map[];
      var i := 0;
      while i < |program|
        invariant 0 <= i <= |program|
        invariant memMap == Loaded(program[..i])
      {
        memMap := memMap[i := program[i]];
        i := i + 1;
        assert memMap == Loaded(program[..i]);
      }
      assert program[..i] == program;
      pc := 0;
      relativeBase := 0;
      mem := memMap;
      io := port;
    }

    method LoadRaw(index: int) returns (r: Result<int, Error>)
      ensures r == Read(mem, index)
    {
      if index < 0 {
        r := Err(IndexOutOfRange);
      } else if index in mem {
        r := Ok(mem[index]);
      } else {
        r := Ok(0);
      }
    }

    method StoreRaw(index: int, value: int) returns (r: Result<(), Error>)
      modifies this`mem
      ensures Write(old(mem), index, value).Ok? <==> r.Ok?
      ensures mem == if r.Ok? then Write(old(mem), index, value).value else old(mem)
      ensures r.Err? ==> r.error == Write(old(mem), index, value).error
    {
      if index < 0 {
        r := Err(IndexOutOfRange);
      } else {
        mem := mem[index := value];
        r := Ok(());
      }
    }

    method LoadEffectiveAddress(pcRel: int, mode: ParameterMode) returns (r: Result<int, Error>)
      ensures r == EffectiveAddress(State(), pcRel, mode)
    {
      match mode {
        case Position =>
          r := LoadRaw(pc + pcRel);
        case Immediate =>
          r := Ok(pc + pcRel);
        case Relative =>
          var offset := LoadRaw(pc + pcRel);
          if offset.Err? {
            return Err(offset.error);
          }
          r := Ok(relativeBase + offset.value);
      }
    }

    method Load(pcRel: int, mode: ParameterMode) returns (r: Result<int, Error>)
      ensures r == LoadOperand(State(), pcRel, mode)
    {
      var a := LoadEffectiveAddress(pcRel, mode);
      if a.Err? {
        return Err(a.error);
      }
      r := LoadRaw(a.value);
    }

    method Store(pcRel: int, mode: ParameterMode, value: int) returns (r: Result<(), Error>)
      modifies this`mem
      ensures var s := StoreOperand(old(State()), pcRel, mode, value);
        (s.Ok? <==> r.Ok?) && (r.Err? ==> r.error == s.error)
        && mem == if s.Ok? then s.value else old(mem)
    {
      var a := LoadEffectiveAddress(pcRel, mode);
      if a.Err? {
        return Err(a.error);
      }
      r := StoreRaw(a.value, value);
    }

    /** One trip round the loop of `execute_inner`. */
    method StepOnce() returns (stop: Option<Status>)
      modifies this
      ensures var t := Step(old(State()));
        State() == (if t.Next? then t.next else t.last)
        && (stop.None? <==> t.Next?)
        && (stop.Some? ==> stop.value == t.status)
    {
      var word := LoadRaw(pc);
      if word.Err? {
        return Some(Failed(word.error));
      }
      var op := ParseInstruction(word.value);
      if op.Err? {
        return Some(Failed(op.error));
      }
      stop := None;
      match op.value {
        case Add(a, b, c) =>
          stop := BinaryOp(op.value, a, b, c);
        case Multiply(a, b, c) =>
          stop := BinaryOp(op.value, a, b, c);
        case LessThan(a, b, c) =>
          stop := BinaryOp(op.value, a, b, c);
        case Equals(a, b, c) =>
          stop := BinaryOp(op.value, a, b, c);
        case Input(dst) =>
          stop := InputStep(dst);
        case Output(src) =>
          stop := OutputStep(src);
        case JumpIfTrue(a, b) =>
          stop := JumpOp(a, b, true);
        case JumpIfFalse(a, b) =>
          stop := JumpOp(a, b, false);
        case AdjustsRelativeBase(mode) =>
          stop := AdjustStep(mode);
        case Exit =>
          return Some(Halted);
      }
    }

    /** Prompt, read, then store through the first operand. */
    method InputStep(dst: ParameterMode) returns (stop: Option<Status>)
      modifies this
      ensures var t := InputOp(old(State()), dst);
        State() == (if t.Next? then t.next else t.last)
        && (stop.None? <==> t.Next?)
        && (stop.Some? ==> stop.value == t.status)
    {
      io := PromptForNumber(io);
      var (value, io') := ReadNumber(io);
      io := io';
      if value.Err? {
        return Some(Failed(value.error));
      }
      var s := Store(1, dst, value.value);
      if s.Err? {
        return Some(Failed(s.error));
      }
      pc := pc + 2;
      stop := None;
    }

    /** Load the first operand and write it to the port. */
    method OutputStep(src: ParameterMode) returns (stop: Option<Status>)
      modifies this
      ensures var t := OutputOp(old(State()), src);
        State() == (if t.Next? then t.next else t.last)
        && (stop.None? <==> t.Next?)
        && (stop.Some? ==> stop.value == t.status)
    {
      var v := Load(1, src);
      if v.Err? {
        return Some(Failed(v.error));
      }
      var w := WriteNumber(io, v.value);
      if w.Err? {
        return Some(Failed(w.error));
      }
      io := w.value;
      pc := pc + 2;
      stop := None;
    }

    /** Add the first operand to the relative base. */
    method AdjustStep(mode: ParameterMode) returns (stop: Option<Status>)
      modifies this
      ensures var t := AdjustOp(old(State()), mode);
        State() == (if t.Next? then t.next else t.last)
        && (stop.None? <==> t.Next?)
        && (stop.Some? ==> stop.value == t.status)
    {
      var v := Load(1, mode);
      if v.Err? {
        return Some(Failed(v.error));
      }
      relativeBase := relativeBase + v.value;
      pc := pc + 2;
      stop := None;
    }

    method BinaryOp(op: Opcode, a: ParameterMode, b: ParameterMode, c: ParameterMode) returns (stop: Option<Status>)
      modifies this
      ensures var t := Binary(old(State()), op, a, b, c);
        State() == (if t.Next? then t.next else t.last)
        && (stop.None? <==> t.Next?)
        && (stop.Some? ==> stop.value == t.status)
    {
      var x := Load(1, a);
      if x.Err? {
        return Some(Failed(x.error));
      }
      var y := Load(2, b);
      if y.Err? {
        return Some(Failed(y.error));
      }
      var s := Store(3, c, Combine(op, x.value, y.value));
      if s.Err? {
        return Some(Failed(s.error));
      }
      pc := pc + 4;
      stop := None;
    }

    method JumpOp(a: ParameterMode, b: ParameterMode, ifTrue: bool) returns (stop: Option<Status>)
      modifies this
      ensures var t := Jump(old(State()), a, b, ifTrue);
        State() == (if t.Next? then t.next else t.last)
        && (stop.None? <==> t.Next?)
        && (stop.Some? ==> stop.value == t.status)
    {
      var x := Load(1, a);
      if x.Err? {
        return Some(Failed(x.error));
      }
      if (x.value != 0) == ifTrue {
        var t := Load(2, b);
        if t.Err? {
          return Some(Failed(t.error));
        }
        pc := t.value;
      } else {
        pc := pc + 3;
      }
      stop := None;
    }

    /** `execute_inner`, for at most `fuel` instructions. */
    method ExecuteInner(fuel: nat) returns (status: Status)
      modifies this
      ensures (State(), status) == Run(old(State()), fuel)
    {
      var steps := 0;
      while steps < fuel
        invariant 0 <= steps <= fuel
        invariant Run(old(State()), fuel) == Run(State(), fuel - steps)
      {
        var stop := StepOnce();
        if stop.Some? {
          return stop.value;
        }
        steps := steps + 1;
      }
      status := Running;
    }

    /** `execute`: as `execute_inner`, with a user-initiated exit reported as success. */
    method Execute(fuel: nat) returns (status: Status)
      modifies this
      ensures State() == Run(old(State()), fuel).0
      ensures status == Finish(Run(old(State()), fuel).1)
    {
      var rc := ExecuteInner(fuel);
      status := if rc == Failed(UserInitiatedExit) then Halted else rc;
    }
  }

  /** The memory `execute_with_io` copies back: the first `n` cells. */
  function Prefix(mem: Memory, n: nat): (s: seq<int>)
    ensures |s| == n
    ensures forall i :: 0 <= i < n ==> Read(mem, i) == Ok(s[i])
  {
    seq(n, i requires 0 <= i < n => if i in mem then mem[i] else 0)
  }

  /** What `execute_with_io` does to the caller's memory slice and port. */
  function RunProgram(program: seq<int>, io: Port, fuel: nat): (Status, seq<int>, Port)
  {
    var (m, s) := Run(Initial(program, io), fuel);
    var status := Finish(s);
    (status, if status == Halted then Prefix(m.mem, |program|) else program, m.io)
  }

  /**
   * `execute_with_io`: runs a CPU over a copy of the slice; only when the run
   * succeeds are the first `mem.Length` cells copied back.
   */
  method ExecuteWithIo(mem: array<int>, port: Port, fuel: nat) returns (status: Status, portAfter: Port)
    modifies mem
    ensures (status, mem[..], portAfter) == RunProgram(old(mem[..]), port, fuel)
  {
    ghost var program := mem[..];
    ghost var expected := RunProgram(program, port, fuel);
    var cpu := new CpuState.Create(mem[..], port);
    var rc := cpu.Execute(fuel);
    assert cpu.State() == Run(Initial(program, port), fuel).0;
    portAfter := cpu.io;
    if rc != Halted {
      return rc, portAfter;
    }
    ghost var copied := Prefix(cpu.mem, mem.Length);
    var i := 0;
    while i < mem.Length
      invariant 0 <= i <= mem.Length
      invariant copied == Prefix(cpu.mem, mem.Length)
      invariant forall j :: 0 <= j < i ==> mem[j] == copied[j]
    {
      var v := cpu.LoadRaw(i);
      mem[i] := v.value;
      i := i + 1;
    }
    assert mem[..] == copied;
    status := Halted;
  }

  // ---------------------------------------------------------------------
  // The repository's test programs
  // ---------------------------------------------------------------------

  function NoIo(): Port
  {
    Port([], EOF, None, [])
  }

  /** A step that continues uses up one unit of fuel. */
  lemma {:induction false} RunNext(m: Machine, m': Machine, fuel: nat)
    requires fuel > 0 && Step(m) == Next(m')
    ensures Run(m, fuel) == Run(m', fuel - 1)
  {
  }

  /** A step that stops ends the run, whatever fuel is left. */
  lemma {:induction false} RunStop(m: Machine, m': Machine, s: Status, fuel: nat)
    requires fuel > 0 && Step(m) == Stop(m', s)
    ensures Run(m, fuel) == (m', s)
  {
  }

  /** `m` goes on as `m'` after `n` steps that continue: a run from `m` with at least `n` fuel is the run from `m'` with `n` less. */
  ghost predicate Leads(m: Machine, m': Machine, n: nat)
  {
    forall fuel: nat :: fuel >= n ==> Run(m, fuel) == Run(m', fuel - n)
  }

  lemma LeadsStep(m: Machine, m': Machine)
    requires Step(m) == Next(m')
    ensures Leads(m, m', 1)
  {
    forall fuel: nat | fuel >= 1
      ensures Run(m, fuel) == Run(m', fuel - 1)
    {
      RunNext(m, m', fuel);
    }
  }

  lemma LeadsTrans(a: Machine, b: Machine, c: Machine, i: nat, j: nat)
    requires Leads(a, b, i) && Leads(b, c, j)
    ensures Leads(a, c, i + j)
  {
    forall fuel: nat | fuel >= i + j
      ensures Run(a, fuel) == Run(c, fuel - (i + j))
    {
      assert Run(a, fuel) == Run(b, fuel - i);
      assert Run(b, fuel - i) == Run(c, fuel - i - j);
    }
  }

  /** Every run from `m` with at least `n` fuel halts, with the port ending as `io`. */
  ghost predicate HaltsWith(m: Machine, io: Port, n: nat)
  {
    forall fuel: nat :: fuel >= n ==> Run(m, fuel).1 == Halted && Run(m, fuel).0.io == io
  }

  lemma HaltsAt(m: Machine)
    requires Step(m) == Stop(m, Halted)
    ensures HaltsWith(m, m.io, 1)
  {
    forall fuel: nat | fuel >= 1
      ensures Run(m, fuel).1 == Halted && Run(m, fuel).0.io == m.io
    {
      RunStop(m, m, Halted, fuel);
    }
  }

  lemma LeadsHalts(a: Machine, b: Machine, io: Port, i: nat, j: nat)
    requires Leads(a, b, i) && HaltsWith(b, io, j)
    ensures HaltsWith(a, io, i + j)
  {
    forall fuel: nat | fuel >= i + j
      ensures Run(a, fuel).1 == Halted && Run(a, fuel).0.io == io
    {
      assert Run(a, fuel) == Run(b, fuel - i);
    }
  }

  /** A program whose every run with at least `fuel` halts with the port ending as `io` does so under `RunProgram`. */
  lemma RunProgramHalts(program: seq<int>, start: Port, io: Port, n: nat, fuel: nat)
    requires HaltsWith(Initial(program, start), io, n) && n <= fuel
    ensures RunProgram(program, start, fuel).0 == Halted && RunProgram(program, start, fuel).2 == io
  {
    assert Run(Initial(program, start), fuel).1 == Halted;
  }

  /** Storing twice into one cell keeps only the second value. */
  lemma StoreTwice(mem: Memory, k: int, a: int, b: int)
    ensures mem[k := a][k := b] == mem[k := b]
  {
  }

  /**
   * A program that leads in `n` steps to an output instruction whose write
   * fails stops there under `RunProgram`, with that error and no copy-back.
   */
  lemma RunProgramWriteFails(program: seq<int>, start: Port, m: Machine, src: ParameterMode, v: int, n: nat)
    requires Leads(Initial(program, start), m, n)
    requires Read(m.mem, m.pc) == Ok(Encode(Output(src))) && LoadOperand(m, 1, src) == Ok(v)
    requires m.io.writeError.Some? && m.io.writeError.value != UserInitiatedExit
    ensures RunProgram(program, start, n + 1) == (Failed(m.io.writeError.value), program, m.io)
  {
    DecodeEncode(Output(src));
    RunStop(m, m, Failed(m.io.writeError.value), 1);
    assert Run(Initial(program, start), n + 1) == Run(m, 1);
  }

  /** A `99` at the program counter halts at once, with nothing changed. */
  lemma HaltLeads(m: Machine)
    requires Read(m.mem, m.pc) == Ok(99)
    ensures HaltsWith(m, m.io, 1)
  {
    HaltAt(m);
    HaltsAt(m);
  }

  /**
   * A program that leads to a `99` in `n` steps halts under `RunProgram` with
   * one more step of fuel, copying back the memory the run reached.
   */
  lemma RunProgramEnds(program: seq<int>, start: Port, m: Machine, n: nat)
    requires Leads(Initial(program, start), m, n) && Read(m.mem, m.pc) == Ok(99)
    ensures RunProgram(program, start, n + 1) == (Halted, Prefix(m.mem, |program|), m.io)
  {
    HaltAt(m);
    RunStop(m, m, Halted, 1);
    assert Run(Initial(program, start), n + 1) == Run(m, 1);
  }

  /** After one store into a loaded program, the copied-back cells are the program with that cell changed. */
  lemma CopiedBack(program: seq<int>, k: int, v: int, result: seq<int>)
    requires 0 <= k < |program| && result == program[k := v]
    ensures Prefix(Loaded(program)[k := v], |program|) == result
  {
  }

  /** A decoded arithmetic or comparison instruction whose operands resolve stores and moves on by four. */
  lemma BinaryAt(m: Machine, op: Opcode, x: int, y: int, dst: int)
    requires Read(m.mem, m.pc).Ok? && ParseInstruction(Read(m.mem, m.pc).value) == Ok(op)
    requires op.Add? || op.Multiply? || op.LessThan? || op.Equals?
    requires LoadOperand(m, 1, op.src1) == Ok(x) && LoadOperand(m, 2, op.src2) == Ok(y)
    requires EffectiveAddress(m, 3, op.dst) == Ok(dst) && dst >= 0
    ensures Step(m) == Next(m.(mem := m.mem[dst := Combine(op, x, y)], pc := m.pc + 4))
  {
  }

  /** A `99` at the program counter halts, leaving the machine as it is. */
  lemma HaltAt(m: Machine)
    requires Read(m.mem, m.pc) == Ok(99)
    ensures Step(m) == Stop(m, Halted)
  {
    DecodeEncode(Exit);
  }

  /** `1,0,0,0,99` ends as `2,0,0,0,99`. */
  lemma AddStep()
    ensures var m := Initial([1, 0, 0, 0, 99], NoIo());
      Step(m) == Next(m.(mem := m.mem[0 := 2], pc := 4))
  {
    var m := Initial([1, 0, 0, 0, 99], NoIo());
    assert Read(m.mem, 0) == Ok(1);
    DecodeEncode(Add(Position, Position, Position));
  }

  lemma AddCopiedBack()
    ensures Prefix(Loaded([1, 0, 0, 0, 99])[0 := 2], 5) == [2, 0, 0, 0, 99]
  {
    assert [1, 0, 0, 0, 99][0 := 2] == [2, 0, 0, 0, 99];
    CopiedBack([1, 0, 0, 0, 99], 0, 2, [2, 0, 0, 0, 99]);
  }

  lemma AddExample()
    ensures RunProgram([1, 0, 0, 0, 99], NoIo(), 2) == (Halted, [2, 0, 0, 0, 99], NoIo())
  {
    var m := Initial([1, 0, 0, 0, 99], NoIo());
    var m1 := m.(mem := m.mem[0 := 2], pc := 4);
    AddStep();
    RunNext(m, m1, 2);
    HaltAt(m1);
    RunStop(m1, m1, Halted, 1);
    AddCopiedBack();
  }

  /** `2,3,0,3,99` ends as `2,3,0,6,99`. */
  lemma MultiplyStep()
    ensures var m := Initial([2, 3, 0, 3, 99], NoIo());
      Step(m) == Next(m.(mem := m.mem[3 := 6], pc := 4))
  {
    var m := Initial([2, 3, 0, 3, 99], NoIo());
    assert Read(m.mem, 0) == Ok(2) && Read(m.mem, 3) == Ok(3);
    DecodeEncode(Multiply(Position, Position, Position));
  }

  lemma MultiplyCopiedBack()
    ensures Prefix(Loaded([2, 3, 0, 3, 99])[3 := 6], 5) == [2, 3, 0, 6, 99]
  {
    assert [2, 3, 0, 3, 99][3 := 6] == [2, 3, 0, 6, 99];
    CopiedBack([2, 3, 0, 3, 99], 3, 6, [2, 3, 0, 6, 99]);
  }

  lemma MultiplyExample()
    ensures RunProgram([2, 3, 0, 3, 99], NoIo(), 2) == (Halted, [2, 3, 0, 6, 99], NoIo())
  {
    var m := Initial([2, 3, 0, 3, 99], NoIo());
    var m1 := m.(mem := m.mem[3 := 6], pc := 4);
    MultiplyStep();
    RunNext(m, m1, 2);
    HaltAt(m1);
    RunStop(m1, m1, Halted, 1);
    MultiplyCopiedBack();
  }

  /** `2,4,4,5,99,0` ends as `2,4,4,5,99,9801`. */
  lemma SquareStep()
    ensures var m := Initial([2, 4, 4, 5, 99, 0], NoIo());
      Step(m) == Next(m.(mem := m.mem[5 := 9801], pc := 4))
  {
    var m := Initial([2, 4, 4, 5, 99, 0], NoIo());
    assert Read(m.mem, 0) == Ok(2) && Read(m.mem, 4) == Ok(99);
    DecodeEncode(Multiply(Position, Position, Position));
  }

  lemma SquareCopiedBack()
    ensures Prefix(Loaded([2, 4, 4, 5, 99, 0])[5 := 9801], 6) == [2, 4, 4, 5, 99, 9801]
  {
    assert [2, 4, 4, 5, 99, 0][5 := 9801] == [2, 4, 4, 5, 99, 9801];
    CopiedBack([2, 4, 4, 5, 99, 0], 5, 9801, [2, 4, 4, 5, 99, 9801]);
  }

  lemma SquareExample()
    ensures RunProgram([2, 4, 4, 5, 99, 0], NoIo(), 2) == (Halted, [2, 4, 4, 5, 99, 9801], NoIo())
  {
    var m := Initial([2, 4, 4, 5, 99, 0], NoIo());
    var m1 := m.(mem := m.mem[5 := 9801], pc := 4);
    SquareStep();
    RunNext(m, m1, 2);
    HaltAt(m1);
    RunStop(m1, m1, Halted, 1);
    SquareCopiedBack();
  }

  /** `1,1,1,4,99,5,6,0,99` ends as `30,1,1,4,2,5,6,0,99`: the first store rewrites the second instruction. */
  function SelfModifyingState(k: nat): Machine
  {
    var m := Initial([1, 1, 1, 4, 99, 5, 6, 0, 99], NoIo());
    if k == 0 then m
    else if k == 1 then m.(mem := m.mem[4 := 2], pc := 4)
    else m.(mem := m.mem[4 := 2][0 := 30], pc := 8)
  }

  lemma SelfModifyingStep0()
    ensures Step(SelfModifyingState(0)) == Next(SelfModifyingState(1))
  {
    var m := SelfModifyingState(0);
    assert Read(m.mem, 0) == Ok(1) && Read(m.mem, 1) == Ok(1);
    DecodeEncode(Add(Position, Position, Position));
  }

  lemma SelfModifyingStep1()
    ensures Step(SelfModifyingState(1)) == Next(SelfModifyingState(2))
  {
    var m := SelfModifyingState(1);
    assert Read(m.mem, 4) == Ok(2) && Read(m.mem, 5) == Ok(5) && Read(m.mem, 6) == Ok(6);
    DecodeEncode(Multiply(Position, Position, Position));
  }

  lemma SelfModifyingCopiedBack()
    ensures Prefix(SelfModifyingState(2).mem, 9) == [30, 1, 1, 4, 2, 5, 6, 0, 99]
  {
    var p := [1, 1, 1, 4, 99, 5, 6, 0, 99];
    var q := [1, 1, 1, 4, 2, 5, 6, 0, 99];
    assert p[4 := 2] == q;
    assert Loaded(p)[4 := 2] == Loaded(q);
    assert q[0 := 30] == [30, 1, 1, 4, 2, 5, 6, 0, 99];
    CopiedBack(q, 0, 30, [30, 1, 1, 4, 2, 5, 6, 0, 99]);
  }

  lemma SelfModifyingExample()
    ensures RunProgram([1, 1, 1, 4, 99, 5, 6, 0, 99], NoIo(), 3) == (Halted, [30, 1, 1, 4, 2, 5, 6, 0, 99], NoIo())
  {
    var m2 := SelfModifyingState(2);
    SelfModifyingStep0();
    RunNext(SelfModifyingState(0), SelfModifyingState(1), 3);
    SelfModifyingStep1();
    RunNext(SelfModifyingState(1), m2, 2);
    HaltAt(m2);
    RunStop(m2, m2, Halted, 1);
    SelfModifyingCopiedBack();
  }

  /** `1002,4,3,4,33` ends as `1002,4,3,4,99`: an immediate operand. */
  lemma ImmediateStep()
    ensures var m := Initial([1002, 4, 3, 4, 33], NoIo());
      Step(m) == Next(m.(mem := m.mem[4 := 99], pc := 4))
  {
    var m := Initial([1002, 4, 3, 4, 33], NoIo());
    assert Read(m.mem, 0) == Ok(1002) && Read(m.mem, 4) == Ok(33);
    DecodeEncode(Multiply(Position, Immediate, Position));
  }

  lemma ImmediateCopiedBack()
    ensures Prefix(Loaded([1002, 4, 3, 4, 33])[4 := 99], 5) == [1002, 4, 3, 4, 99]
  {
    assert [1002, 4, 3, 4, 33][4 := 99] == [1002, 4, 3, 4, 99];
    CopiedBack([1002, 4, 3, 4, 33], 4, 99, [1002, 4, 3, 4, 99]);
  }

  lemma ImmediateExample()
    ensures RunProgram([1002, 4, 3, 4, 33], NoIo(), 2) == (Halted, [1002, 4, 3, 4, 99], NoIo())
  {
    var m := Initial([1002, 4, 3, 4, 33], NoIo());
    var m1 := m.(mem := m.mem[4 := 99], pc := 4);
    ImmediateStep();
    RunNext(m, m1, 2);
    HaltAt(m1);
    RunStop(m1, m1, Halted, 1);
    ImmediateCopiedBack();
  }

  /** `3,0,4,0,99` run on a given port. */
  function EchoStart(io: Port): Machine
  {
    Initial([3, 0, 4, 0, 99], io)
  }

  /** Its first step prompts, takes the first number and stores it over the `3`. */
  lemma EchoRead(v: int, io: Port)
    requires |io.input| > 0 && io.input[0] == v
    ensures var m := EchoStart(io);
      Step(m) == Next(m.(mem := m.mem[0 := v], pc := 2, io := io.(input := io.input[1..], log := io.log + [Prompted])))
  {
    var m := EchoStart(io);
    assert Read(m.mem, 0) == Ok(3) && Read(m.mem, 1) == Ok(0);
    DecodeEncode(Input(Position));
  }

  /** Its second step writes the stored number back out. */
  lemma EchoWrite(m: Machine, v: int)
    requires m.pc == 2 && Read(m.mem, 0) == Ok(v) && Read(m.mem, 2) == Ok(4) && Read(m.mem, 3) == Ok(0)
    ensures Step(m) == (if m.io.writeError.Some? then Stop(m, Failed(m.io.writeError.value))
                        else Next(m.(pc := 4, io := m.io.(log := m.io.log + [Wrote(v)]))))
  {
    DecodeEncode(Output(Position));
  }

  /** With input 42 it prompts, then writes 42. */
  lemma EchoExample()
    ensures var io := Port([42], EOF, None, []);
      RunProgram([3, 0, 4, 0, 99], io, 3).0 == Halted
      && RunProgram([3, 0, 4, 0, 99], io, 3).2 == Port([], EOF, None, [Prompted, Wrote(42)])
  {
    var io := Port([42], EOF, None, []);
    var m := EchoStart(io);
    var m1 := m.(mem := m.mem[0 := 42], pc := 2, io := Port([], EOF, None, [Prompted]));
    EchoRead(42, io);
    RunNext(m, m1, 3);
    assert Read(m1.mem, 0) == Ok(42) && Read(m1.mem, 2) == Ok(4) && Read(m1.mem, 3) == Ok(0);
    var m2 := m1.(pc := 4, io := Port([], EOF, None, [Prompted, Wrote(42)]));
    EchoWrite(m1, 42);
    RunNext(m1, m2, 2);
    assert Read(m2.mem, 4) == Ok(99);
    HaltAt(m2);
    RunStop(m2, m2, Halted, 1);
  }

  /** `104,1125899906842624,99` writes the large immediate operand. */
  lemma LargeOutputExample()
    ensures RunProgram([104, 1125899906842624, 99], NoIo(), 2).2.log == [Wrote(1125899906842624)]
  {
    var m := Initial([104, 1125899906842624, 99], NoIo());
    assert Read(m.mem, 0) == Ok(104) && Read(m.mem, 1) == Ok(1125899906842624);
    DecodeEncode(Output(Immediate));
    var m1 := m.(pc := 2, io := NoIo().(log := [Wrote(1125899906842624)]));
    RunNext(m, m1, 2);
    assert Read(m1.mem, 2) == Ok(99);
    HaltAt(m1);
    RunStop(m1, m1, Halted, 1);
  }

  /** `1102,34915192,34915192,7,4,7,99,0` writes a sixteen-digit product. */
  function LargeProductState(k: nat): Machine
  {
    var m := Initial([1102, 34915192, 34915192, 7, 4, 7, 99, 0], NoIo());
    if k == 0 then m
    else if k == 1 then m.(mem := m.mem[7 := 1219070632396864], pc := 4)
    else m.(mem := m.mem[7 := 1219070632396864], pc := 6, io := NoIo().(log := [Wrote(1219070632396864)]))
  }

  lemma LargeProductStep0()
    ensures Step(LargeProductState(0)) == Next(LargeProductState(1))
  {
    var m := LargeProductState(0);
    assert Read(m.mem, 0) == Ok(1102) && Read(m.mem, 1) == Ok(34915192);
    assert Read(m.mem, 2) == Ok(34915192) && Read(m.mem, 3) == Ok(7);
    assert 34915192 * 34915192 == 1219070632396864;
    DecodeEncode(Multiply(Immediate, Immediate, Position));
  }

  lemma LargeProductStep1()
    ensures Step(LargeProductState(1)) == Next(LargeProductState(2))
  {
    var m := LargeProductState(1);
    assert Read(m.mem, 4) == Ok(4) && Read(m.mem, 5) == Ok(7) && Read(m.mem, 7) == Ok(1219070632396864);
    DecodeEncode(Output(Position));
  }

  lemma LargeProductExample()
    ensures RunProgram([1102, 34915192, 34915192, 7, 4, 7, 99, 0], NoIo(), 3).2.log == [Wrote(1219070632396864)]
  {
    var m2 := LargeProductState(2);
    LargeProductStep0();
    RunNext(LargeProductState(0), LargeProductState(1), 3);
    LargeProductStep1();
    RunNext(LargeProductState(1), m2, 2);
    assert Read(m2.mem, 6) == Ok(99);
    HaltAt(m2);
    RunStop(m2, m2, Halted, 1);
  }

  // The comparison and jump programs of `test_input_output`, for every input

  /** A console that gives the one number `v`. */
  function Console(v: int): Port
  {
    Port([v], EOF, None, [])
  }

  /** A `3` at the program counter prompts, then stores the next number at the address its operand names. */
  lemma InputAt(m: Machine, dst: int)
    requires Read(m.mem, m.pc) == Ok(3) && Read(m.mem, m.pc + 1) == Ok(dst) && dst >= 0 && |m.io.input| > 0
    ensures Step(m) == Next(m.(mem := m.mem[dst := m.io.input[0]], pc := m.pc + 2,
      io := m.io.(input := m.io.input[1..], log := m.io.log + [Prompted])))
  {
    DecodeEncode(Input(Position));
  }

  /** An output instruction whose operand resolves writes it, when writes succeed. */
  lemma OutputAt(m: Machine, src: ParameterMode, v: int)
    requires Read(m.mem, m.pc) == Ok(Encode(Output(src))) && LoadOperand(m, 1, src) == Ok(v)
    requires m.io.writeError.None?
    ensures Step(m) == Next(m.(pc := m.pc + 2, io := m.io.(log := m.io.log + [Wrote(v)])))
  {
    DecodeEncode(Output(src));
  }

  /** A jump whose operands resolve moves to the target when taken and past itself otherwise. */
  lemma JumpAt(m: Machine, op: Opcode, x: int, t: int)
    requires IsJump(op) && Read(m.mem, m.pc) == Ok(Encode(op))
    requires LoadOperand(m, 1, op.comparand) == Ok(x) && LoadOperand(m, 2, op.target) == Ok(t)
    ensures Step(m) == Next(m.(pc := if (x != 0) == op.JumpIfTrue? then t else m.pc + 3))
  {
    DecodeEncode(op);
  }

  /** `InputAt`, `OutputAt`, `BinaryAt` and `JumpAt` as one step of a run. */
  lemma InputLeads(m: Machine, dst: int)
    requires Read(m.mem, m.pc) == Ok(3) && Read(m.mem, m.pc + 1) == Ok(dst) && dst >= 0 && |m.io.input| > 0
    ensures Leads(m, m.(mem := m.mem[dst := m.io.input[0]], pc := m.pc + 2,
      io := m.io.(input := m.io.input[1..], log := m.io.log + [Prompted])), 1)
  {
    InputAt(m, dst);
    LeadsStep(m, m.(mem := m.mem[dst := m.io.input[0]], pc := m.pc + 2,
      io := m.io.(input := m.io.input[1..], log := m.io.log + [Prompted])));
  }

  lemma OutputLeads(m: Machine, src: ParameterMode, v: int)
    requires Read(m.mem, m.pc) == Ok(Encode(Output(src))) && LoadOperand(m, 1, src) == Ok(v)
    requires m.io.writeError.None?
    ensures Leads(m, m.(pc := m.pc + 2, io := m.io.(log := m.io.log + [Wrote(v)])), 1)
  {
    OutputAt(m, src, v);
    LeadsStep(m, m.(pc := m.pc + 2, io := m.io.(log := m.io.log + [Wrote(v)])));
  }

  lemma BinaryLeads(m: Machine, op: Opcode, x: int, y: int, dst: int)
    requires Read(m.mem, m.pc).Ok? && ParseInstruction(Read(m.mem, m.pc).value) == Ok(op)
    requires op.Add? || op.Multiply? || op.LessThan? || op.Equals?
    requires LoadOperand(m, 1, op.src1) == Ok(x) && LoadOperand(m, 2, op.src2) == Ok(y)
    requires EffectiveAddress(m, 3, op.dst) == Ok(dst) && dst >= 0
    ensures Leads(m, m.(mem := m.mem[dst := Combine(op, x, y)], pc := m.pc + 4), 1)
  {
    BinaryAt(m, op, x, y, dst);
    LeadsStep(m, m.(mem := m.mem[dst := Combine(op, x, y)], pc := m.pc + 4));
  }

  lemma JumpLeads(m: Machine, op: Opcode, x: int, t: int)
    requires IsJump(op) && Read(m.mem, m.pc) == Ok(Encode(op))
    requires LoadOperand(m, 1, op.comparand) == Ok(x) && LoadOperand(m, 2, op.target) == Ok(t)
    ensures Leads(m, m.(pc := if (x != 0) == op.JumpIfTrue? then t else m.pc + 3), 1)
  {
    JumpAt(m, op, x, t);
    LeadsStep(m, m.(pc := if (x != 0) == op.JumpIfTrue? then t else m.pc + 3));
  }

  /** What a comparison with 8 writes: 1 when the input equals 8 (or is less than 8), 0 otherwise. */
  function CompareWithEight(equals: bool, v: int): (c: int)
    ensures c == 0 || c == 1
    ensures c == 1 <==> (if equals then v == 8 else v < 8)
  {
    if equals then (if v == 8 then 1 else 0) else (if v < 8 then 1 else 0)
  }

  /** `3,9,8,9,10,9,4,9,99,-1,8` (equal to 8) and `3,9,7,9,10,9,4,9,99,-1,8` (less than 8), in position mode. */
  function PositionCompare(equals: bool): seq<int>
  {
    [3, 9, if equals then 8 else 7, 9, 10, 9, 4, 9, 99, -1, 8]
  }

  function PositionCompareOp(equals: bool): Opcode
  {
    if equals then Equals(Position, Position, Position) else LessThan(Position, Position, Position)
  }

  /** The machine after `k` steps of a position-mode comparison with input `v`. */
  function PositionCompareState(equals: bool, v: int, k: nat): Machine
  {
    var m := Initial(PositionCompare(equals), Console(v));
    var c := CompareWithEight(equals, v);
    if k == 0 then m
    else if k == 1 then m.(mem := m.mem[9 := v], pc := 2, io := Port([], EOF, None, [Prompted]))
    else if k == 2 then m.(mem := m.mem[9 := c], pc := 6, io := Port([], EOF, None, [Prompted]))
    else m.(mem := m.mem[9 := c], pc := 8, io := Port([], EOF, None, [Prompted, Wrote(c)]))
  }

  lemma PositionCompareRead(equals: bool, v: int)
    ensures Leads(PositionCompareState(equals, v, 0), PositionCompareState(equals, v, 1), 1)
  {
    var m0 := PositionCompareState(equals, v, 0);
    assert Read(m0.mem, 0) == Ok(3) && Read(m0.mem, 1) == Ok(9);
    assert m0.io.input[1..] == [] && m0.io.log + [Prompted] == [Prompted];
    InputLeads(m0, 9);
  }

  lemma PositionCompareCompare(equals: bool, v: int)
    ensures Leads(PositionCompareState(equals, v, 1), PositionCompareState(equals, v, 2), 1)
  {
    var m1 := PositionCompareState(equals, v, 1);
    var op := PositionCompareOp(equals);
    if equals {
      assert Read(m1.mem, 2) == Ok(1108 - 1100);
    } else {
      assert Read(m1.mem, 2) == Ok(1107 - 1100);
    }
    assert Read(m1.mem, 2) == Ok(Encode(op)) && Read(m1.mem, 3) == Ok(9);
    assert Read(m1.mem, 4) == Ok(10) && Read(m1.mem, 5) == Ok(9);
    assert Read(m1.mem, 9) == Ok(v) && Read(m1.mem, 10) == Ok(8);
    DecodeEncode(op);
    StoreTwice(Initial(PositionCompare(equals), Console(v)).mem, 9, v, Combine(op, v, 8));
    BinaryLeads(m1, op, v, 8, 9);
  }

  lemma PositionCompareWrite(equals: bool, v: int)
    ensures Leads(PositionCompareState(equals, v, 2), PositionCompareState(equals, v, 3), 1)
  {
    var c := CompareWithEight(equals, v);
    var m2 := PositionCompareState(equals, v, 2);
    assert Read(m2.mem, 6) == Ok(Encode(Output(Position))) && Read(m2.mem, 7) == Ok(9) && Read(m2.mem, 9) == Ok(c);
    assert m2.io.log + [Wrote(c)] == [Prompted, Wrote(c)];
    OutputLeads(m2, Position, c);
  }

  /**
   * The position-mode comparisons, for every input: one prompt, then 1 when
   * the input equals 8 (or is less than 8) and 0 otherwise; the comparison's
   * result is left in cell 9.
   */
  lemma PositionCompareExample(equals: bool, v: int)
    ensures var c := CompareWithEight(equals, v);
      RunProgram(PositionCompare(equals), Console(v), 4)
        == (Halted, PositionCompare(equals)[9 := c], Port([], EOF, None, [Prompted, Wrote(c)]))
  {
    PositionCompareRead(equals, v);
    PositionCompareCompare(equals, v);
    PositionCompareWrite(equals, v);
    LeadsTrans(PositionCompareState(equals, v, 0), PositionCompareState(equals, v, 1), PositionCompareState(equals, v, 2), 1, 1);
    LeadsTrans(PositionCompareState(equals, v, 0), PositionCompareState(equals, v, 2), PositionCompareState(equals, v, 3), 2, 1);
    var m3 := PositionCompareState(equals, v, 3);
    assert Read(m3.mem, 8) == Ok(99);
    RunProgramEnds(PositionCompare(equals), Console(v), m3, 3);
    var c := CompareWithEight(equals, v);
    CopiedBack(PositionCompare(equals), 9, c, PositionCompare(equals)[9 := c]);
  }

  /** `3,3,1108,-1,8,3,4,3,99` (equal to 8) and `3,3,1107,-1,8,3,4,3,99` (less than 8), in immediate mode. */
  function ImmediateCompare(equals: bool): seq<int>
  {
    [3, 3, if equals then 1108 else 1107, -1, 8, 3, 4, 3, 99]
  }

  function ImmediateCompareOp(equals: bool): Opcode
  {
    if equals then Equals(Immediate, Immediate, Position) else LessThan(Immediate, Immediate, Position)
  }

  /** The machine after `k` steps of an immediate-mode comparison with input `v`. */
  function ImmediateCompareState(equals: bool, v: int, k: nat): Machine
  {
    var m := Initial(ImmediateCompare(equals), Console(v));
    var c := CompareWithEight(equals, v);
    if k == 0 then m
    else if k == 1 then m.(mem := m.mem[3 := v], pc := 2, io := Port([], EOF, None, [Prompted]))
    else if k == 2 then m.(mem := m.mem[3 := c], pc := 6, io := Port([], EOF, None, [Prompted]))
    else m.(mem := m.mem[3 := c], pc := 8, io := Port([], EOF, None, [Prompted, Wrote(c)]))
  }

  lemma ImmediateCompareRead(equals: bool, v: int)
    ensures Leads(ImmediateCompareState(equals, v, 0), ImmediateCompareState(equals, v, 1), 1)
  {
    var m0 := ImmediateCompareState(equals, v, 0);
    assert Read(m0.mem, 0) == Ok(3) && Read(m0.mem, 1) == Ok(3);
    assert m0.io.input[1..] == [] && m0.io.log + [Prompted] == [Prompted];
    InputLeads(m0, 3);
  }

  lemma ImmediateCompareCompare(equals: bool, v: int)
    ensures Leads(ImmediateCompareState(equals, v, 1), ImmediateCompareState(equals, v, 2), 1)
  {
    var m1 := ImmediateCompareState(equals, v, 1);
    var op := ImmediateCompareOp(equals);
    assert Read(m1.mem, 2) == Ok(Encode(op)) && Read(m1.mem, 3) == Ok(v);
    assert Read(m1.mem, 4) == Ok(8) && Read(m1.mem, 5) == Ok(3);
    DecodeEncode(op);
    StoreTwice(Initial(ImmediateCompare(equals), Console(v)).mem, 3, v, Combine(op, v, 8));
    BinaryLeads(m1, op, v, 8, 3);
  }

  lemma ImmediateCompareWrite(equals: bool, v: int)
    ensures Leads(ImmediateCompareState(equals, v, 2), ImmediateCompareState(equals, v, 3), 1)
  {
    var c := CompareWithEight(equals, v);
    var m2 := ImmediateCompareState(equals, v, 2);
    assert Read(m2.mem, 6) == Ok(Encode(Output(Position))) && Read(m2.mem, 7) == Ok(3) && Read(m2.mem, 3) == Ok(c);
    assert m2.io.log + [Wrote(c)] == [Prompted, Wrote(c)];
    OutputLeads(m2, Position, c);
  }

  /** The immediate-mode comparisons, for every input: one prompt, then 1 or 0 as for position mode. */
  lemma ImmediateCompareExample(equals: bool, v: int)
    ensures var c := CompareWithEight(equals, v);
      RunProgram(ImmediateCompare(equals), Console(v), 4)
        == (Halted, ImmediateCompare(equals)[3 := c], Port([], EOF, None, [Prompted, Wrote(c)]))
  {
    ImmediateCompareRead(equals, v);
    ImmediateCompareCompare(equals, v);
    ImmediateCompareWrite(equals, v);
    LeadsTrans(ImmediateCompareState(equals, v, 0), ImmediateCompareState(equals, v, 1), ImmediateCompareState(equals, v, 2), 1, 1);
    LeadsTrans(ImmediateCompareState(equals, v, 0), ImmediateCompareState(equals, v, 2), ImmediateCompareState(equals, v, 3), 2, 1);
    var m3 := ImmediateCompareState(equals, v, 3);
    assert Read(m3.mem, 8) == Ok(99);
    RunProgramEnds(ImmediateCompare(equals), Console(v), m3, 3);
    var c := CompareWithEight(equals, v);
    CopiedBack(ImmediateCompare(equals), 3, c, ImmediateCompare(equals)[3 := c]);
  }

  /** `3,12,6,12,15,1,13,14,13,4,13,99,-1,0,1,9`: a jump in position mode over the store of 1. */
  const PositionJump: seq<int> := [3, 12, 6, 12, 15, 1, 13, 14, 13, 4, 13, 99, -1, 0, 1, 9]

  /** The machine after reading `v`, then after the jump, then after the store of 1 when the jump is not taken. */
  function PositionJumpState(v: int, k: nat): Machine
  {
    var m := Initial(PositionJump, Console(v));
    var read := m.(mem := m.mem[12 := v], pc := 2, io := Port([], EOF, None, [Prompted]));
    if k == 0 then m
    else if k == 1 then read
    else if v == 0 then read.(pc := 9)
    else if k == 2 then read.(pc := 5)
    else read.(mem := read.mem[13 := 1], pc := 9)
  }

  lemma PositionJumpRead(v: int)
    ensures Leads(PositionJumpState(v, 0), PositionJumpState(v, 1), 1)
  {
    var m0 := PositionJumpState(v, 0);
    assert Read(m0.mem, 0) == Ok(3) && Read(m0.mem, 1) == Ok(12);
    assert m0.io.input[1..] == [] && m0.io.log + [Prompted] == [Prompted];
    InputLeads(m0, 12);
  }

  lemma PositionJumpJump(v: int)
    ensures Leads(PositionJumpState(v, 1), PositionJumpState(v, 2), 1)
  {
    var m1 := PositionJumpState(v, 1);
    var op := JumpIfFalse(Position, Position);
    assert Read(m1.mem, 2) == Ok(Encode(op)) && Read(m1.mem, 3) == Ok(12) && Read(m1.mem, 4) == Ok(15);
    assert Read(m1.mem, 12) == Ok(v) && Read(m1.mem, 15) == Ok(9);
    JumpLeads(m1, op, v, 9);
  }

  lemma PositionJumpStore(v: int)
    requires v != 0
    ensures Leads(PositionJumpState(v, 2), PositionJumpState(v, 3), 1)
  {
    var m2 := PositionJumpState(v, 2);
    var op := Add(Position, Position, Position);
    assert Read(m2.mem, 5) == Ok(Encode(op)) && Read(m2.mem, 6) == Ok(13);
    assert Read(m2.mem, 7) == Ok(14) && Read(m2.mem, 8) == Ok(13);
    assert Read(m2.mem, 13) == Ok(0) && Read(m2.mem, 14) == Ok(1);
    DecodeEncode(op);
    BinaryLeads(m2, op, 0, 1, 13);
  }

  /** From the output instruction at 9: the value of cell 13 is written, then the `99` halts. */
  lemma PositionJumpFinish(m: Machine, c: int)
    requires m.pc == 9 && m.io.writeError.None?
    requires forall i :: 9 <= i <= 11 ==> Read(m.mem, i) == Ok(PositionJump[i])
    requires Read(m.mem, 13) == Ok(c)
    ensures HaltsWith(m, m.io.(log := m.io.log + [Wrote(c)]), 2)
  {
    assert Read(m.mem, 9) == Ok(Encode(Output(Position))) && Read(m.mem, 10) == Ok(13);
    OutputLeads(m, Position, c);
    var m' := m.(pc := 11, io := m.io.(log := m.io.log + [Wrote(c)]));
    assert Read(m'.mem, 11) == Ok(99);
    HaltLeads(m');
    LeadsHalts(m, m', m'.io, 1, 1);
  }

  /** The run up to the output instruction: read, jump and, when the jump is not taken, the store. */
  lemma PositionJumpReaches(v: int)
    ensures Leads(PositionJumpState(v, 0), PositionJumpState(v, if v == 0 then 2 else 3), if v == 0 then 2 else 3)
  {
    PositionJumpRead(v);
    PositionJumpJump(v);
    LeadsTrans(PositionJumpState(v, 0), PositionJumpState(v, 1), PositionJumpState(v, 2), 1, 1);
    if v != 0 {
      PositionJumpStore(v);
      LeadsTrans(PositionJumpState(v, 0), PositionJumpState(v, 2), PositionJumpState(v, 3), 2, 1);
    }
  }

  /** The position-mode jump program, for every input: one prompt, then 0 for input 0 and 1 otherwise. */
  lemma PositionJumpExample(v: int)
    ensures var r := RunProgram(PositionJump, Console(v), 5);
      r.0 == Halted && r.2 == Port([], EOF, None, [Prompted, Wrote(if v == 0 then 0 else 1)])
  {
    PositionJumpReaches(v);
    var c := if v == 0 then 0 else 1;
    var m := PositionJumpState(v, if v == 0 then 2 else 3);
    assert Read(m.mem, 13) == Ok(c);
    PositionJumpFinish(m, c);
    assert m.io.log + [Wrote(c)] == [Prompted, Wrote(c)];
    var io := Port([], EOF, None, [Prompted, Wrote(c)]);
    LeadsHalts(PositionJumpState(v, 0), m, io, if v == 0 then 2 else 3, 2);
    RunProgramHalts(PositionJump, Console(v), io, if v == 0 then 4 else 5, 5);
  }

  /** `3,3,1105,-1,9,1101,0,0,12,4,12,99,1`: a jump in immediate mode over the store of 0. */
  const ImmediateJump: seq<int> := [3, 3, 1105, -1, 9, 1101, 0, 0, 12, 4, 12, 99, 1]

  /** The machine after reading `v`, then after the jump, then after the store of 0 when the jump is not taken. */
  function ImmediateJumpState(v: int, k: nat): Machine
  {
    var m := Initial(ImmediateJump, Console(v));
    var read := m.(mem := m.mem[3 := v], pc := 2, io := Port([], EOF, None, [Prompted]));
    if k == 0 then m
    else if k == 1 then read
    else if v != 0 then read.(pc := 9)
    else if k == 2 then read.(pc := 5)
    else read.(mem := read.mem[12 := 0], pc := 9)
  }

  lemma ImmediateJumpRead(v: int)
    ensures Leads(ImmediateJumpState(v, 0), ImmediateJumpState(v, 1), 1)
  {
    var m0 := ImmediateJumpState(v, 0);
    assert Read(m0.mem, 0) == Ok(3) && Read(m0.mem, 1) == Ok(3);
    assert m0.io.input[1..] == [] && m0.io.log + [Prompted] == [Prompted];
    InputLeads(m0, 3);
  }

  lemma ImmediateJumpJump(v: int)
    ensures Leads(ImmediateJumpState(v, 1), ImmediateJumpState(v, 2), 1)
  {
    var m1 := ImmediateJumpState(v, 1);
    var op := JumpIfTrue(Immediate, Immediate);
    assert Read(m1.mem, 2) == Ok(Encode(op)) && Read(m1.mem, 3) == Ok(v) && Read(m1.mem, 4) == Ok(9);
    JumpLeads(m1, op, v, 9);
  }

  lemma ImmediateJumpStore(v: int)
    requires v == 0
    ensures Leads(ImmediateJumpState(v, 2), ImmediateJumpState(v, 3), 1)
  {
    var m2 := ImmediateJumpState(v, 2);
    var op := Add(Immediate, Immediate, Position);
    assert Read(m2.mem, 5) == Ok(Encode(op)) && Read(m2.mem, 6) == Ok(0);
    assert Read(m2.mem, 7) == Ok(0) && Read(m2.mem, 8) == Ok(12);
    DecodeEncode(op);
    BinaryLeads(m2, op, 0, 0, 12);
  }

  /** From the output instruction at 9: the value of cell 12 is written, then the `99` halts. */
  lemma ImmediateJumpFinish(m: Machine, c: int)
    requires m.pc == 9 && m.io.writeError.None?
    requires forall i :: 9 <= i <= 11 ==> Read(m.mem, i) == Ok(ImmediateJump[i])
    requires Read(m.mem, 12) == Ok(c)
    ensures HaltsWith(m, m.io.(log := m.io.log + [Wrote(c)]), 2)
  {
    assert Read(m.mem, 9) == Ok(Encode(Output(Position))) && Read(m.mem, 10) == Ok(12);
    OutputLeads(m, Position, c);
    var m' := m.(pc := 11, io := m.io.(log := m.io.log + [Wrote(c)]));
    assert Read(m'.mem, 11) == Ok(99);
    HaltLeads(m');
    LeadsHalts(m, m', m'.io, 1, 1);
  }

  /** The run up to the output instruction: read, jump and, when the jump is not taken, the store. */
  lemma ImmediateJumpReaches(v: int)
    ensures Leads(ImmediateJumpState(v, 0), ImmediateJumpState(v, if v != 0 then 2 else 3), if v != 0 then 2 else 3)
  {
    ImmediateJumpRead(v);
    ImmediateJumpJump(v);
    LeadsTrans(ImmediateJumpState(v, 0), ImmediateJumpState(v, 1), ImmediateJumpState(v, 2), 1, 1);
    if v == 0 {
      ImmediateJumpStore(v);
      LeadsTrans(ImmediateJumpState(v, 0), ImmediateJumpState(v, 2), ImmediateJumpState(v, 3), 2, 1);
    }
  }

  lemma ImmediateJumpOutputReady(v: int)
    ensures var m := ImmediateJumpState(v, if v != 0 then 2 else 3);
      m.pc == 9 && m.io == Port([], EOF, None, [Prompted])
      && (forall i :: 9 <= i <= 11 ==> Read(m.mem, i) == Ok(ImmediateJump[i]))
      && Read(m.mem, 12) == Ok(if v == 0 then 0 else 1)
  {
  }

  /** The immediate-mode jump program, for every input: one prompt, then 0 for input 0 and 1 otherwise. */
  lemma ImmediateJumpExample(v: int)
    ensures var r := RunProgram(ImmediateJump, Console(v), 5);
      r.0 == Halted && r.2 == Port([], EOF, None, [Prompted, Wrote(if v == 0 then 0 else 1)])
  {
    ImmediateJumpReaches(v);
    var c := if v == 0 then 0 else 1;
    var m := ImmediateJumpState(v, if v != 0 then 2 else 3);
    ImmediateJumpOutputReady(v);
    ImmediateJumpFinish(m, c);
    var io := Port([], EOF, None, [Prompted, Wrote(c)]);
    LeadsHalts(ImmediateJumpState(v, 0), m, io, if v != 0 then 2 else 3, 2);
    RunProgramHalts(ImmediateJump, Console(v), io, if v != 0 then 4 else 5, 5);
  }

  /**
   * The `AROUND_EIGHT` program of `test_input_output` and `test_channel_io`:
   * 999 for an input below 8, 1000 for 8, 1001 above 8. Cells 20 and 21 are
   * its scratch cells. It is written in three pieces of at most sixteen words.
   */
  const AroundEight: seq<int> := AroundEightHead + AroundEightMiddle + AroundEightTail
  const AroundEightHead: seq<int> := [3, 21, 1008, 21, 8, 20, 1005, 20, 22, 107, 8, 21, 20, 1006, 20, 31]
  const AroundEightMiddle: seq<int> := [1106, 0, 36, 98, 0, 0, 1002, 21, 125, 20, 4, 20, 1105, 1, 46, 104]
  const AroundEightTail: seq<int> := [999, 1105, 1, 46, 1101, 1000, 1, 20, 4, 20, 1105, 1, 46, 98, 99]

  /** What `AROUND_EIGHT` writes for input `v`. */
  function AroundEightAnswer(v: int): int
  {
    if v < 8 then 999 else if v == 8 then 1000 else 1001
  }

  /** The program's words are in place, except perhaps in its scratch cells 20 and 21. */
  predicate HoldsAroundEight(mem: Memory)
  {
    (forall i :: 0 <= i < 16 ==> Read(mem, i) == Ok(AroundEightHead[i]))
    && (forall i {:trigger Read(mem, i)} :: 16 <= i < 32 && i != 20 && i != 21 ==> Read(mem, i) == Ok(AroundEightMiddle[i - 16]))
    && (forall i {:trigger Read(mem, i)} :: 32 <= i < 47 ==> Read(mem, i) == Ok(AroundEightTail[i - 32]))
  }

  lemma AroundEightScratch(mem: Memory, a: int, v: int)
    requires HoldsAroundEight(mem) && (a == 20 || a == 21)
    ensures HoldsAroundEight(mem[a := v])
  {
    forall i | 0 <= i < 16
      ensures Read(mem[a := v], i) == Ok(AroundEightHead[i])
    {
      assert Read(mem, i) == Ok(AroundEightHead[i]);
    }
    forall i {:trigger Read(mem[a := v], i)} | 16 <= i < 32 && i != 20 && i != 21
      ensures Read(mem[a := v], i) == Ok(AroundEightMiddle[i - 16])
    {
      assert Read(mem, i) == Ok(AroundEightMiddle[i - 16]);
    }
    forall i {:trigger Read(mem[a := v], i)} | 32 <= i < 47
      ensures Read(mem[a := v], i) == Ok(AroundEightTail[i - 32])
    {
      assert Read(mem, i) == Ok(AroundEightTail[i - 32]);
    }
  }

  /** The jump at 28, 33 or 42 goes to the `99` at 46, which halts. */
  lemma AroundEightFinish(m: Machine)
    requires HoldsAroundEight(m.mem) && (m.pc == 28 || m.pc == 33 || m.pc == 42)
    ensures HaltsWith(m, m.io, 2)
  {
    var op := JumpIfTrue(Immediate, Immediate);
    if m.pc == 28 {
      assert Read(m.mem, 28) == Ok(1105) && Read(m.mem, 29) == Ok(1) && Read(m.mem, 30) == Ok(46);
    } else if m.pc == 33 {
      assert Read(m.mem, 33) == Ok(1105) && Read(m.mem, 34) == Ok(1) && Read(m.mem, 35) == Ok(46);
    } else {
      assert Read(m.mem, 42) == Ok(1105) && Read(m.mem, 43) == Ok(1) && Read(m.mem, 44) == Ok(46);
    }
    assert Read(m.mem, m.pc) == Ok(Encode(op));
    var e := m.(pc := 46);
    JumpLeads(m, op, 1, 46);
    assert Read(m.mem, 46) == Ok(99);
    HaltsAt(e);
    LeadsHalts(m, e, m.io, 1, 1);
  }

  /** The output at 26, 31 or 40 writes its operand, and then the run halts. */
  lemma AroundEightWrite(m: Machine, src: ParameterMode, out: int)
    requires HoldsAroundEight(m.mem) && (m.pc == 26 || m.pc == 31 || m.pc == 40)
    requires Read(m.mem, m.pc) == Ok(Encode(Output(src))) && LoadOperand(m, 1, src) == Ok(out)
    requires m.io.writeError.None?
    ensures HaltsWith(m, m.io.(log := m.io.log + [Wrote(out)]), 3)
  {
    var m' := m.(pc := m.pc + 2, io := m.io.(log := m.io.log + [Wrote(out)]));
    OutputLeads(m, src, out);
    AroundEightFinish(m');
    LeadsHalts(m, m', m'.io, 1, 2);
  }

  /** Step at 22: cell 20 becomes cell 21 times 125. */
  lemma AroundEightTimes(m: Machine, v: int)
    requires HoldsAroundEight(m.mem) && m.pc == 22 && Read(m.mem, 21) == Ok(v)
    ensures Leads(m, m.(mem := m.mem[20 := v * 125], pc := 26), 1)
  {
    var op := Multiply(Position, Immediate, Position);
    assert Read(m.mem, 22) == Ok(1002) && Read(m.mem, 23) == Ok(21);
    assert Read(m.mem, 24) == Ok(125) && Read(m.mem, 25) == Ok(20);
    assert Read(m.mem, 22) == Ok(Encode(op));
    DecodeEncode(op);
    BinaryLeads(m, op, v, 125, 20);
  }

  /** Input 8: cell 20 becomes 8 * 125, which is written. */
  lemma AroundEightEqual(m: Machine)
    requires HoldsAroundEight(m.mem) && m.pc == 22 && Read(m.mem, 21) == Ok(8) && m.io.writeError.None?
    ensures HaltsWith(m, m.io.(log := m.io.log + [Wrote(1000)]), 4)
  {
    AroundEightTimes(m, 8);
    var m' := m.(mem := m.mem[20 := 1000], pc := 26);
    AroundEightScratch(m.mem, 20, 1000);
    assert Read(m'.mem, 26) == Ok(4) && Read(m'.mem, 27) == Ok(20) && Read(m'.mem, 20) == Ok(1000);
    AroundEightWrite(m', Position, 1000);
    LeadsHalts(m, m', m.io.(log := m.io.log + [Wrote(1000)]), 1, 3);
  }

  /** Step at 16: the jump to 36. */
  lemma AroundEightSkip(m: Machine)
    requires HoldsAroundEight(m.mem) && m.pc == 16
    ensures Leads(m, m.(pc := 36), 1)
  {
    var jump := JumpIfFalse(Immediate, Immediate);
    assert Read(m.mem, 16) == Ok(1106) && Read(m.mem, 17) == Ok(0) && Read(m.mem, 18) == Ok(36);
    assert Read(m.mem, 16) == Ok(Encode(jump));
    JumpLeads(m, jump, 0, 36);
  }

  /** Step at 36: cell 20 becomes 1000 + 1. */
  lemma AroundEightSum(m: Machine)
    requires HoldsAroundEight(m.mem) && m.pc == 36
    ensures Leads(m, m.(mem := m.mem[20 := 1001], pc := 40), 1)
  {
    var op := Add(Immediate, Immediate, Position);
    assert Read(m.mem, 36) == Ok(1101) && Read(m.mem, 37) == Ok(1000);
    assert Read(m.mem, 38) == Ok(1) && Read(m.mem, 39) == Ok(20);
    assert Read(m.mem, 36) == Ok(Encode(op));
    DecodeEncode(op);
    BinaryLeads(m, op, 1000, 1, 20);
  }

  /** Input above 8: the jump at 16 goes to 36, where cell 20 becomes 1000 + 1, which is written. */
  lemma AroundEightAbove(m: Machine)
    requires HoldsAroundEight(m.mem) && m.pc == 16 && m.io.writeError.None?
    ensures HaltsWith(m, m.io.(log := m.io.log + [Wrote(1001)]), 5)
  {
    AroundEightSkip(m);
    var m1 := m.(pc := 36);
    AroundEightSum(m1);
    var m2 := m.(mem := m.mem[20 := 1001], pc := 40);
    LeadsTrans(m, m1, m2, 1, 1);
    AroundEightScratch(m.mem, 20, 1001);
    assert Read(m2.mem, 40) == Ok(4) && Read(m2.mem, 41) == Ok(20) && Read(m2.mem, 20) == Ok(1001);
    AroundEightWrite(m2, Position, 1001);
    LeadsHalts(m, m2, m.io.(log := m.io.log + [Wrote(1001)]), 2, 3);
  }

  /** Step at 9: cell 20 becomes `8 < v`. */
  lemma AroundEightLess(m: Machine, v: int)
    requires HoldsAroundEight(m.mem) && m.pc == 9 && Read(m.mem, 21) == Ok(v)
    ensures Leads(m, m.(mem := m.mem[20 := if 8 < v then 1 else 0], pc := 13), 1)
  {
    var op := LessThan(Immediate, Position, Position);
    assert Read(m.mem, 9) == Ok(107) && Read(m.mem, 10) == Ok(8);
    assert Read(m.mem, 11) == Ok(21) && Read(m.mem, 12) == Ok(20);
    assert Read(m.mem, 9) == Ok(Encode(op));
    DecodeEncode(op);
    BinaryLeads(m, op, 8, v, 20);
  }

  /** Step at 13: when cell 20 is 0 the jump goes to 31, otherwise on to 16. */
  lemma AroundEightBranch(m: Machine, b: int)
    requires HoldsAroundEight(m.mem) && m.pc == 13 && Read(m.mem, 20) == Ok(b)
    ensures Leads(m, m.(pc := if b == 0 then 31 else 16), 1)
  {
    var jump := JumpIfFalse(Position, Immediate);
    assert Read(m.mem, 13) == Ok(1006) && Read(m.mem, 14) == Ok(20) && Read(m.mem, 15) == Ok(31);
    assert Read(m.mem, 13) == Ok(Encode(jump));
    JumpLeads(m, jump, b, 31);
  }

  /** Input other than 8: cell 20 becomes `8 < v`; then 999 is written directly, or the jump at 16 is reached. */
  lemma AroundEightOther(m: Machine, v: int)
    requires HoldsAroundEight(m.mem) && m.pc == 9 && Read(m.mem, 21) == Ok(v) && v != 8
    requires m.io.writeError.None?
    ensures HaltsWith(m, m.io.(log := m.io.log + [Wrote(AroundEightAnswer(v))]), 7)
  {
    var io := m.io.(log := m.io.log + [Wrote(AroundEightAnswer(v))]);
    AroundEightLess(m, v);
    var b := if 8 < v then 1 else 0;
    var m1 := m.(mem := m.mem[20 := b], pc := 13);
    AroundEightScratch(m.mem, 20, b);
    assert Read(m1.mem, 20) == Ok(b);
    AroundEightBranch(m1, b);
    var m2 := m1.(pc := if b == 0 then 31 else 16);
    LeadsTrans(m, m1, m2, 1, 1);
    if b == 0 {
      assert Read(m2.mem, 31) == Ok(104) && Read(m2.mem, 32) == Ok(999);
      AroundEightWrite(m2, Immediate, 999);
      LeadsHalts(m, m2, io, 2, 3);
    } else {
      AroundEightAbove(m2);
      LeadsHalts(m, m2, io, 2, 5);
    }
  }

  /** A word of a program loaded from three pieces is the word of its piece. */
  lemma LoadedPieces(h: seq<int>, mid: seq<int>, t: seq<int>, i: nat)
    requires i < |h| + |mid| + |t|
    ensures i < |h| ==> Read(Loaded(h + mid + t), i) == Ok(h[i])
    ensures |h| <= i < |h| + |mid| ==> Read(Loaded(h + mid + t), i) == Ok(mid[i - |h|])
    ensures |h| + |mid| <= i ==> Read(Loaded(h + mid + t), i) == Ok(t[i - |h| - |mid|])
  {
    LoadedReads(h + mid + t, i);
  }

  /** The loaded program holds its words. */
  lemma AroundEightLoaded(io: Port)
    ensures HoldsAroundEight(Initial(AroundEight, io).mem)
  {
    forall i | 0 <= i < 16
      ensures Read(Loaded(AroundEight), i) == Ok(AroundEightHead[i])
    {
      LoadedPieces(AroundEightHead, AroundEightMiddle, AroundEightTail, i);
    }
    forall i | 16 <= i < 32 && i != 20 && i != 21
      ensures Read(Loaded(AroundEight), i) == Ok(AroundEightMiddle[i - 16])
    {
      LoadedPieces(AroundEightHead, AroundEightMiddle, AroundEightTail, i);
    }
    forall i | 32 <= i < 47
      ensures Read(Loaded(AroundEight), i) == Ok(AroundEightTail[i - 32])
    {
      LoadedPieces(AroundEightHead, AroundEightMiddle, AroundEightTail, i);
    }
  }

  /** Step at 2: compare cell 21 (holding `v`) with 8 into cell 20. */
  lemma AroundEightTest(m: Machine, v: int)
    requires HoldsAroundEight(m.mem) && m.pc == 2 && Read(m.mem, 21) == Ok(v)
    ensures Leads(m, m.(mem := m.mem[20 := if v == 8 then 1 else 0], pc := 6), 1)
  {
    var op := Equals(Position, Immediate, Position);
    assert Read(m.mem, 2) == Ok(1008) && Read(m.mem, 3) == Ok(21);
    assert Read(m.mem, 4) == Ok(8) && Read(m.mem, 5) == Ok(20);
    assert Read(m.mem, 2) == Ok(Encode(op));
    DecodeEncode(op);
    BinaryLeads(m, op, v, 8, 20);
  }

  /** Step at 6: jump to 22 when cell 20 is nonzero. */
  lemma AroundEightEqualJump(m: Machine, b: int)
    requires HoldsAroundEight(m.mem) && m.pc == 6 && Read(m.mem, 20) == Ok(b)
    ensures Leads(m, m.(pc := if b != 0 then 22 else 9), 1)
  {
    var jump := JumpIfTrue(Position, Immediate);
    assert Read(m.mem, 6) == Ok(1005) && Read(m.mem, 7) == Ok(20) && Read(m.mem, 8) == Ok(22);
    assert Read(m.mem, 6) == Ok(Encode(jump));
    JumpLeads(m, jump, b, 22);
  }

  /** Steps at 2 and 6: compare cell 21 (holding `v`) with 8 into cell 20, then jump to 22 when equal. */
  lemma AroundEightCompare(m: Machine, v: int)
    requires HoldsAroundEight(m.mem) && m.pc == 2 && Read(m.mem, 21) == Ok(v)
    ensures Leads(m, m.(mem := m.mem[20 := if v == 8 then 1 else 0], pc := if v == 8 then 22 else 9), 2)
  {
    var b := if v == 8 then 1 else 0;
    AroundEightTest(m, v);
    var m2 := m.(mem := m.mem[20 := b], pc := 6);
    AroundEightScratch(m.mem, 20, b);
    AroundEightEqualJump(m2, b);
    LeadsTrans(m, m2, m2.(pc := if v == 8 then 22 else 9), 1, 1);
  }

  /** The first three steps: read `v` into cell 21, compare it with 8 into cell 20, jump to 22 when equal. */
  lemma AroundEightStart(m: Machine, v: int)
    requires HoldsAroundEight(m.mem) && m.pc == 0 && m.io == Console(v)
    ensures var b := if v == 8 then 1 else 0;
      var m3 := m.(mem := m.mem[21 := v][20 := b], pc := if v == 8 then 22 else 9, io := Port([], EOF, None, [Prompted]));
      Leads(m, m3, 3) && HoldsAroundEight(m3.mem) && Read(m3.mem, 21) == Ok(v)
  {
    assert Read(m.mem, 0) == Ok(3) && Read(m.mem, 1) == Ok(21);
    InputLeads(m, 21);
    assert m.io.input[1..] == [] && m.io.log + [Prompted] == [Prompted];
    var m1 := m.(mem := m.mem[21 := v], pc := 2, io := Port([], EOF, None, [Prompted]));
    assert Leads(m, m1, 1);
    AroundEightScratch(m.mem, 21, v);
    AroundEightCompare(m1, v);
    var b := if v == 8 then 1 else 0;
    var m3 := m1.(mem := m1.mem[20 := b], pc := if v == 8 then 22 else 9);
    LeadsTrans(m, m1, m3, 1, 2);
    AroundEightScratch(m1.mem, 20, b);
  }

  /** From the start, on a console holding `v`: one prompt, then the answer, then the halt. */
  lemma AroundEightRun(m: Machine, v: int)
    requires HoldsAroundEight(m.mem) && m.pc == 0 && m.io == Console(v)
    ensures HaltsWith(m, Port([], EOF, None, [Prompted, Wrote(AroundEightAnswer(v))]), 10)
  {
    var io := Port([], EOF, None, [Prompted, Wrote(AroundEightAnswer(v))]);
    AroundEightStart(m, v);
    var b := if v == 8 then 1 else 0;
    var m3 := m.(mem := m.mem[21 := v][20 := b], pc := if v == 8 then 22 else 9, io := Port([], EOF, None, [Prompted]));
    if v == 8 {
      AroundEightEqual(m3);
      LeadsHalts(m, m3, io, 3, 4);
    } else {
      AroundEightOther(m3, v);
      LeadsHalts(m, m3, io, 3, 7);
    }
  }

  /** `AROUND_EIGHT`, for every input: one prompt, then 999 below 8, 1000 at 8 and 1001 above. */
  lemma AroundEightExample(v: int)
    ensures var r := RunProgram(AroundEight, Console(v), 10);
      r.0 == Halted && r.2 == Port([], EOF, None, [Prompted, Wrote(AroundEightAnswer(v))])
  {
    var m := Initial(AroundEight, Console(v));
    AroundEightLoaded(Console(v));
    AroundEightRun(m, v);
    RunProgramHalts(AroundEight, Console(v), Port([], EOF, None, [Prompted, Wrote(AroundEightAnswer(v))]), 10, 10);
  }

  /** `AROUND_EIGHT` with its input channel closed stops with the receive error at the first read. */
  lemma ClosedInputExample()
    ensures var io := Port([], RecvError, None, []);
      RunProgram(AroundEight, io, 1) == (Failed(RecvError), AroundEight, Port([], RecvError, None, [Prompted]))
  {
    var io := Port([], RecvError, None, []);
    var m := Initial(AroundEight, io);
    AroundEightLoaded(io);
    assert Read(m.mem, 0) == Ok(3);
    DecodeEncode(Input(Position));
    RunStop(m, m.(io := Port([], RecvError, None, [Prompted])), Failed(RecvError), 1);
  }

  /**
   * `AROUND_EIGHT` with input 0 and its output channel closed: it reads, takes
   * the below-8 branch and stops with the send error at the write of 999.
   */
  lemma ClosedOutputExample()
    ensures var io := Port([0], EOF, Some(SendError), []);
      RunProgram(AroundEight, io, 6) == (Failed(SendError), AroundEight, Port([], EOF, Some(SendError), [Prompted]))
  {
    var io := Port([0], EOF, Some(SendError), []);
    var m := Initial(AroundEight, io);
    AroundEightLoaded(io);
    assert Read(m.mem, 0) == Ok(3) && Read(m.mem, 1) == Ok(21);
    assert m.io.input[1..] == [] && m.io.log + [Prompted] == [Prompted];
    InputLeads(m, 21);
    var m1 := m.(mem := m.mem[21 := 0], pc := 2, io := Port([], EOF, Some(SendError), [Prompted]));
    AroundEightScratch(m.mem, 21, 0);
    AroundEightCompare(m1, 0);
    var m2 := m1.(mem := m1.mem[20 := 0], pc := 9);
    AroundEightScratch(m1.mem, 20, 0);
    AroundEightLess(m2, 0);
    var m3 := m2.(mem := m2.mem[20 := 0], pc := 13);
    AroundEightScratch(m2.mem, 20, 0);
    AroundEightBranch(m3, 0);
    var m4 := m3.(pc := 31);
    LeadsTrans(m, m1, m2, 1, 2);
    LeadsTrans(m, m2, m3, 3, 1);
    LeadsTrans(m, m3, m4, 4, 1);
    assert Read(m4.mem, 31) == Ok(104) && Read(m4.mem, 32) == Ok(999);
    RunProgramWriteFails(AroundEight, io, m4, Immediate, 999, 5);
  }

  // The quine of `test_relative_base`

  /** `109,1,204,-1,1001,100,1,100,1008,100,16,101,1006,101,0,99`: a program that writes itself out. */
  const Quine: seq<int> := [109, 1, 204, -1, 1001, 100, 1, 100, 1008, 100, 16, 101, 1006, 101, 0, 99]

  /** The log of writing the numbers of `s`, in order. */
  function WroteAll(s: seq<int>): (log: seq<Event>)
    ensures |log| == |s| && forall i :: 0 <= i < |s| ==> log[i] == Wrote(s[i])
  {
    if |s| == 0 then [] else WroteAll(s[..|s| - 1]) + [Wrote(s[|s| - 1])]
  }

  /** The quine's own words are in the first sixteen cells. */
  predicate HoldsQuine(mem: Memory)
  {
    forall i :: 0 <= i < |Quine| ==> Read(mem, i) == Ok(Quine[i])
  }

  /**
   * The quine at the top of its loop after writing its first `k` words: the
   * relative base and cell 100 count them, and cell 101 is 0.
   */
  predicate QuineLoop(m: Machine, k: nat)
  {
    k <= |Quine| && m.pc == 0 && m.relativeBase == k && HoldsQuine(m.mem)
    && Read(m.mem, 100) == Ok(k) && Read(m.mem, 101) == Ok(0)
    && m.io == Port([], EOF, None, WroteAll(Quine[..k]))
  }

  lemma QuineAdjust(m: Machine)
    requires m.pc == 0 && HoldsQuine(m.mem)
    ensures Step(m) == Next(m.(relativeBase := m.relativeBase + 1, pc := 2))
  {
    assert Read(m.mem, 0) == Ok(Encode(AdjustsRelativeBase(Immediate))) && Read(m.mem, 1) == Ok(1);
    DecodeEncode(AdjustsRelativeBase(Immediate));
  }

  lemma QuineWrite(m: Machine, k: nat)
    requires m.pc == 2 && HoldsQuine(m.mem) && m.relativeBase == k + 1 && k < |Quine| && m.io.writeError.None?
    ensures Step(m) == Next(m.(pc := 4, io := m.io.(log := m.io.log + [Wrote(Quine[k])])))
  {
    assert Read(m.mem, 2) == Ok(Encode(Output(Relative))) && Read(m.mem, 3) == Ok(-1);
    assert Read(m.mem, k) == Ok(Quine[k]);
    OutputAt(m, Relative, Quine[k]);
  }

  lemma QuineCount(m: Machine, k: int)
    requires m.pc == 4 && HoldsQuine(m.mem) && Read(m.mem, 100) == Ok(k)
    ensures Step(m) == Next(m.(mem := m.mem[100 := k + 1], pc := 8))
  {
    var op := Add(Position, Immediate, Position);
    assert Read(m.mem, 4) == Ok(Encode(op)) && Read(m.mem, 5) == Ok(100);
    assert Read(m.mem, 6) == Ok(1) && Read(m.mem, 7) == Ok(100);
    DecodeEncode(op);
    BinaryAt(m, op, k, 1, 100);
  }

  lemma QuineCompare(m: Machine, n: int)
    requires m.pc == 8 && HoldsQuine(m.mem) && Read(m.mem, 100) == Ok(n)
    ensures Step(m) == Next(m.(mem := m.mem[101 := if n == 16 then 1 else 0], pc := 12))
  {
    var op := Equals(Position, Immediate, Position);
    assert Read(m.mem, 8) == Ok(Encode(op)) && Read(m.mem, 9) == Ok(100);
    assert Read(m.mem, 10) == Ok(16) && Read(m.mem, 11) == Ok(101);
    DecodeEncode(op);
    BinaryAt(m, op, n, 16, 101);
  }

  lemma QuineBranch(m: Machine, b: int)
    requires m.pc == 12 && HoldsQuine(m.mem) && Read(m.mem, 101) == Ok(b)
    ensures Step(m) == Next(m.(pc := if b == 0 then 0 else 15))
  {
    var op := JumpIfFalse(Position, Immediate);
    assert Read(m.mem, 12) == Ok(Encode(op)) && Read(m.mem, 13) == Ok(101) && Read(m.mem, 14) == Ok(0);
    JumpAt(m, op, b, 0);
  }

  /** Stores into cells 100 and 101 leave the program's own words alone. */
  lemma QuineStoresOutside(mem: Memory, a: int, v: int)
    requires HoldsQuine(mem) && a >= |Quine|
    ensures HoldsQuine(mem[a := v])
  {
    forall i | 0 <= i < |Quine|
      ensures Read(mem[a := v], i) == Ok(Quine[i])
    {
      assert Read(mem, i) == Ok(Quine[i]);
    }
  }

  /** The machine one pass of the loop after `m`: the `k`-th word written, the counters moved on. */
  function QuinePass(m: Machine, k: nat): Machine
    requires k < |Quine|
  {
    var n := k + 1;
    m.(relativeBase := n, pc := if n == 16 then 15 else 0,
       mem := m.mem[100 := n][101 := if n == 16 then 1 else 0],
       io := m.io.(log := m.io.log + [Wrote(Quine[k])]))
  }

  /** What a pass needs at the top of the loop: the words in place, the base and cell 100 at `k`, and writes that succeed. */
  predicate QuineTop(m: Machine, k: nat)
  {
    k < |Quine| && m.pc == 0 && m.relativeBase == k && HoldsQuine(m.mem)
    && Read(m.mem, 100) == Ok(k) && m.io.writeError.None?
  }

  /** The first two steps of a pass: adjust the base, then write the word it now points past. */
  lemma QuineOpeningSteps(m: Machine, k: nat)
    requires QuineTop(m, k)
    ensures Leads(m, m.(relativeBase := k + 1, pc := 4, io := m.io.(log := m.io.log + [Wrote(Quine[k])])), 2)
  {
    var m1 := m.(relativeBase := k + 1, pc := 2);
    var m2 := m1.(pc := 4, io := m.io.(log := m.io.log + [Wrote(Quine[k])]));
    QuineAdjust(m);
    LeadsStep(m, m1);
    QuineWrite(m1, k);
    LeadsStep(m1, m2);
    LeadsTrans(m, m1, m2, 1, 1);
  }

  /** The machine after the first three steps of a pass. */
  function QuineCounted(m: Machine, k: nat): Machine
    requires k < |Quine|
  {
    m.(relativeBase := k + 1, pc := 8, mem := m.mem[100 := k + 1], io := m.io.(log := m.io.log + [Wrote(Quine[k])]))
  }

  /** The first three steps of a pass: adjust the base, write the word, count it in cell 100. */
  lemma QuineFirstSteps(m: Machine, k: nat)
    requires QuineTop(m, k)
    ensures Leads(m, QuineCounted(m, k), 3)
    ensures HoldsQuine(QuineCounted(m, k).mem) && Read(QuineCounted(m, k).mem, 100) == Ok(k + 1)
  {
    QuineOpeningSteps(m, k);
    var m2 := m.(relativeBase := k + 1, pc := 4, io := m.io.(log := m.io.log + [Wrote(Quine[k])]));
    QuineCount(m2, k);
    LeadsStep(m2, QuineCounted(m, k));
    LeadsTrans(m, m2, QuineCounted(m, k), 2, 1);
    QuineStoresOutside(m2.mem, 100, k + 1);
  }

  /** The last two steps of a pass: compare the count with 16 into cell 101, then loop or fall through. */
  lemma QuineLastSteps(m: Machine, n: int)
    requires m.pc == 8 && HoldsQuine(m.mem) && Read(m.mem, 100) == Ok(n)
    ensures var b := if n == 16 then 1 else 0;
      Leads(m, m.(mem := m.mem[101 := b], pc := if n == 16 then 15 else 0), 2)
  {
    var b := if n == 16 then 1 else 0;
    var m4 := m.(mem := m.mem[101 := b], pc := 12);
    QuineCompare(m, n);
    LeadsStep(m, m4);
    QuineStoresOutside(m.mem, 101, b);
    QuineBranch(m4, b);
    LeadsStep(m4, m4.(pc := if n == 16 then 15 else 0));
    LeadsTrans(m, m4, m4.(pc := if n == 16 then 15 else 0), 1, 1);
  }

  /** One pass of the loop takes five steps. */
  lemma QuineIteration(m: Machine, k: nat)
    requires QuineTop(m, k)
    ensures Leads(m, QuinePass(m, k), 5)
  {
    QuineFirstSteps(m, k);
    var m3 := QuineCounted(m, k);
    QuineLastSteps(m3, k + 1);
    var b := if k + 1 == 16 then 1 else 0;
    assert m3.(mem := m3.mem[101 := b], pc := if k + 1 == 16 then 15 else 0) == QuinePass(m, k);
    LeadsTrans(m, m3, QuinePass(m, k), 3, 2);
  }

  /** Before the last word a pass ends at the top of the loop again; after it, at the `99`, with every word written. */
  lemma QuinePassState(m: Machine, k: nat)
    requires QuineLoop(m, k) && k < |Quine|
    ensures k + 1 < |Quine| ==> QuineLoop(QuinePass(m, k), k + 1)
    ensures k + 1 == |Quine| ==>
      var m' := QuinePass(m, k);
      m'.pc == 15 && HoldsQuine(m'.mem) && m'.io == Port([], EOF, None, WroteAll(Quine))
  {
    var n := k + 1;
    QuineStoresOutside(m.mem, 100, n);
    QuineStoresOutside(m.mem[100 := n], 101, if n == 16 then 1 else 0);
    assert Quine[..n][..k] == Quine[..k];
    assert WroteAll(Quine[..n]) == WroteAll(Quine[..k]) + [Wrote(Quine[k])];
    assert Quine[..16] == Quine;
  }

  /** From the top of the loop after `k` words, the run writes the rest and halts with the words in place. */
  lemma {:induction false} QuineRest(m: Machine, k: nat, fuel: nat)
    requires QuineLoop(m, k) && k < |Quine| && fuel >= 5 * (|Quine| - k) + 1
    ensures Run(m, fuel).1 == Halted
    ensures Run(m, fuel).0.io == Port([], EOF, None, WroteAll(Quine))
    ensures HoldsQuine(Run(m, fuel).0.mem)
    decreases |Quine| - k
  {
    QuineIteration(m, k);
    QuinePassState(m, k);
    var m' := QuinePass(m, k);
    assert Run(m, fuel) == Run(m', fuel - 5);
    if k + 1 < |Quine| {
      QuineRest(m', k + 1, fuel - 5);
    } else {
      assert Read(m'.mem, 15) == Ok(99);
      HaltAt(m');
      RunStop(m', m', Halted, fuel - 5);
    }
  }

  /**
   * `test_relative_base`: with no input, the quine writes its own sixteen
   * words in order, halts, and leaves its words as they were.
   */
  lemma QuineExample()
    ensures RunProgram(Quine, NoIo(), 81) == (Halted, Quine, Port([], EOF, None, WroteAll(Quine)))
  {
    var m := Initial(Quine, NoIo());
    assert Quine[..0] == [];
    assert HoldsQuine(m.mem);
    QuineRest(m, 0, 81);
    var end := Run(m, 81).0;
    assert Prefix(end.mem, |Quine|) == Quine;
  }

  /** A failed run leaves the caller's memory as it was, even after earlier stores. */
  lemma FailedRunKeepsMemory()
    ensures RunProgram([1, 0, 0, 0, 98], NoIo(), 2) == (Failed(InvalidOpCode(98)), [1, 0, 0, 0, 98], NoIo())
  {
    var m := Initial([1, 0, 0, 0, 98], NoIo());
    var m1 := m.(mem := m.mem[0 := 2], pc := 4);
    assert Read(m.mem, 0) == Ok(1);
    DecodeEncode(Add(Position, Position, Position));
    RunNext(m, m1, 2);
    assert Read(m1.mem, 4) == Ok(98);
    assert ParseInstruction(98) == Err(InvalidOpCode(98));
    RunStop(m1, m1, Failed(InvalidOpCode(98)), 1);
  }
}
