/**
 * Day 7 with the first interpreter (`day7` at the top of the repository):
 * the same amplifier chain and maximum search as the 2019 version, over the
 * flat `i32` machine. The permutation code is the 2019 code with `i32` and
 * `u32` in place of `i64` and `u64`; it is only ever called as
 * `permutation(0, 5)`, where the two agree, so the model shares `Day7`'s.
 */
module LegacyDay7 {
  import opened Common
  import opened LegacyIntcode
  import Day7

  /** Why a chain stops: the VM failed, it panicked, its output was not one `i32`, or it ran out of fuel. */
  datatype ChainError = VmFailed(error: Error) | VmPanicked | OutputNotANumber | OutOfFuel

  /** The numbers the machine wrote, in order. */
  function Written(log: seq<Event>): (outs: seq<int>)
    ensures |outs| <= |log|
  {
    if |log| == 0 then []
    else (if log[0].Wrote? then [log[0].value] else []) + Written(log[1..])
  }

  /** The input a stage reads: its phase, then the previous output, then end of file. */
  function StageInput(phase: int, input: int): Io
  {
    Io([phase, input], EOF, None, [])
  }

  /** One amplifier on the first interpreter; its output is parsed as an `i32`. */
  function Stage(program: seq<int>, phase: int, input: int, fuel: nat): Result<int, ChainError>
  {
    var (_, status, io) := Execution(program, StageInput(phase, input), fuel);
    if status.Running? then Err(OutOfFuel)
    else if status.Panicked? then Err(VmPanicked)
    else if status.Failed? then Err(VmFailed(status.error))
    else match ParseI32(Trim(Day7.OutputText(Written(io.log))))
      case None => Err(OutputNotANumber)
      case Some(v) => Ok(v)
  }

  /** A stage yields a value exactly when its run halts having written one number, which fits `i32`. */
  lemma StageMeaning(program: seq<int>, phase: int, input: int, fuel: nat)
    ensures var (_, status, io) := Execution(program, StageInput(phase, input), fuel);
      Stage(program, phase, input, fuel).Ok? <==>
        status == Halted && |Written(io.log)| == 1 && I32_MIN <= Written(io.log)[0] <= I32_MAX
    ensures var (_, status, io) := Execution(program, StageInput(phase, input), fuel);
      Stage(program, phase, input, fuel).Ok? ==> Written(io.log) == [Stage(program, phase, input, fuel).value]
  {
    var (_, status, io) := Execution(program, StageInput(phase, input), fuel);
    Day7.ParseOutput(Written(io.log), I32_MIN, I32_MAX);
  }

  function StageOf(program: seq<int>, fuel: nat): (int, int) -> Result<int, ChainError>
  {
    (phase: int, input: int) => Stage(program, phase, input, fuel)
  }

  /** `run_amplifier_controller_program`: the chain of the program's stages, from input 0. */
  function Chain(program: seq<int>, phases: seq<int>, fuel: nat): Result<int, ChainError>
  {
    Day7.ChainWith(StageOf(program, fuel), phases, 0)
  }

  function ChainOf(program: seq<int>, fuel: nat): seq<int> -> Result<int, ChainError>
  {
    (phases: seq<int>) => Chain(program, phases, fuel)
  }

  /** One amplifier, on a copy of the program that the interpreter changes in place. */
  method RunStage(program: seq<int>, phase: int, input: int, fuel: nat) returns (r: Result<int, ChainError>)
    ensures r == Stage(program, phase, input, fuel)
  {
    var copy := new int[|program|](i requires 0 <= i < |program| => program[i]);
    assert copy[..] == program;
    var status, io := ExecuteInner(copy, StageInput(phase, input), fuel);
    if status.Running? {
      return Err(OutOfFuel);
    }
    if status.Panicked? {
      return Err(VmPanicked);
    }
    if status.Failed? {
      return Err(VmFailed(status.error));
    }
    var parsed := ParseI32(Trim(Day7.OutputText(Written(io.log))));
    if parsed.None? {
      return Err(OutputNotANumber);
    }
    r := Ok(parsed.value);
  }

  /** `run_amplifier_controller_program`: the input starts at 0 and each stage's output replaces it. */
  method RunAmplifierControllerProgram(program: seq<int>, phases: seq<int>, fuel: nat) returns (r: Result<int, ChainError>)
    ensures r == Chain(program, phases, fuel)
  {
    var input := 0;
    var i := 0;
    while i < |phases|
      invariant 0 <= i <= |phases|
      invariant Chain(program, phases, fuel) == Day7.ChainWith(StageOf(program, fuel), phases[i..], input)
    {
      var out := RunStage(program, phases[i], input, fuel);
      assert StageOf(program, fuel)(phases[i], input) == out;
      assert phases[i..][1..] == phases[i + 1..];
      if out.Err? {
        return Err(out.error);
      }
      input := out.value;
      i := i + 1;
    }
    r := Ok(input);
  }

  /** `find_max_thruster`: the largest chain output over `permutation(0, 5)`, from `i32::MIN`. */
  method FindMaxThruster(program: seq<int>, fuel: nat) returns (r: Result<int, ChainError>)
    ensures r == Day7.MaxThrust(ChainOf(program, fuel), Day7.Permutations(0, 5), I32_MIN)
  {
    var settings := Day7.Permutation(0, 5);
    r := MaxOver(program, settings, fuel);
  }

  /** The loop of `find_max_thruster` over a given list of phase settings. */
  method MaxOver(program: seq<int>, settings: seq<seq<int>>, fuel: nat) returns (r: Result<int, ChainError>)
    ensures r == Day7.MaxThrust(ChainOf(program, fuel), settings, I32_MIN)
  {
    var best := I32_MIN;
    var i := 0;
    while i < |settings|
      invariant 0 <= i <= |settings|
      invariant Day7.MaxThrust(ChainOf(program, fuel), settings, I32_MIN)
        == Day7.MaxThrust(ChainOf(program, fuel), settings[i..], best)
    {
      var out := RunAmplifierControllerProgram(program, settings[i], fuel);
      assert ChainOf(program, fuel)(settings[i]) == out;
      assert settings[i..][1..] == settings[i + 1..];
      if out.Err? {
        return Err(out.error);
      }
      best := Day7.Max(best, out.value);
      i := i + 1;
    }
    r := Ok(best);
  }

  // ---------------------------------------------------------------------
  // The first test program
  // ---------------------------------------------------------------------

  /** The machine after each of `3,15,3,16,1002,16,10,16,1,16,15,15,4,15,99,0,0`'s instructions. */
  function TenTimesState(phase: int, input: int, k: nat): Machine
  {
    var p := Day7.TenTimesPlusPhase;
    if k == 0 then Machine(p, 0, StageInput(phase, input))
    else if k == 1 then Machine(p[15 := phase], 2, Io([input], EOF, None, [Prompted]))
    else
      var mem2 := p[15 := phase][16 := input];
      var io2 := Io([], EOF, None, [Prompted, Prompted]);
      if k == 2 then Machine(mem2, 4, io2)
      else if k == 3 then Machine(mem2[16 := 10 * input], 8, io2)
      else
        var mem4 := mem2[16 := 10 * input][15 := 10 * input + phase];
        if k == 4 then Machine(mem4, 12, io2)
        else Machine(mem4, 14, Io([], EOF, None, [Prompted, Prompted, Wrote(10 * input + phase)]))
  }

  lemma TenTimesStep0(phase: int, input: int)
    ensures Step(TenTimesState(phase, input, 0)) == Next(TenTimesState(phase, input, 1))
  {
    DecodeEncode(Input);
  }

  lemma TenTimesStep1(phase: int, input: int)
    ensures Step(TenTimesState(phase, input, 1)) == Next(TenTimesState(phase, input, 2))
  {
    DecodeEncode(Input);
  }

  lemma TenTimesStep2(phase: int, input: int)
    requires I32_MIN <= 10 * input <= I32_MAX
    ensures Step(TenTimesState(phase, input, 2)) == Next(TenTimesState(phase, input, 3))
  {
    DecodeExamples();
    var m := TenTimesState(phase, input, 2);
    assert m.mem[4] == 1002 && m.mem[5] == 16 && m.mem[6] == 10 && m.mem[7] == 16 && m.mem[16] == input;
    BinaryAt(m, Multiply(Position, Immediate), 16, input, 10);
  }

  lemma TenTimesStep3(phase: int, input: int)
    requires I32_MIN <= 10 * input + phase <= I32_MAX
    ensures Step(TenTimesState(phase, input, 3)) == Next(TenTimesState(phase, input, 4))
  {
    DecodeEncode(Add(Position, Position));
    var m := TenTimesState(phase, input, 3);
    assert m.mem[8] == 1 && m.mem[9] == 16 && m.mem[10] == 15 && m.mem[11] == 15;
    assert m.mem[16] == 10 * input && m.mem[15] == phase;
    BinaryAt(m, Add(Position, Position), 15, 10 * input, phase);
  }

  lemma TenTimesStep4(phase: int, input: int)
    ensures Step(TenTimesState(phase, input, 4)) == Next(TenTimesState(phase, input, 5))
  {
    DecodeEncode(Output(Position));
    var m := TenTimesState(phase, input, 4);
    assert m.mem[12] == 4 && m.mem[13] == 15 && m.mem[15] == 10 * input + phase;
    OutputAt(m, Position, 10 * input + phase);
  }

  lemma TenTimesRunReads(phase: int, input: int)
    requires I32_MIN <= 10 * input <= I32_MAX
    ensures Run(TenTimesState(phase, input, 0), 6) == Run(TenTimesState(phase, input, 3), 3)
  {
    TenTimesStep0(phase, input);
    RunNext(TenTimesState(phase, input, 0), TenTimesState(phase, input, 1), 6);
    TenTimesStep1(phase, input);
    RunNext(TenTimesState(phase, input, 1), TenTimesState(phase, input, 2), 5);
    TenTimesStep2(phase, input);
    RunNext(TenTimesState(phase, input, 2), TenTimesState(phase, input, 3), 4);
  }

  lemma TenTimesRunWrites(phase: int, input: int)
    requires I32_MIN <= 10 * input + phase <= I32_MAX
    ensures Run(TenTimesState(phase, input, 3), 3) == (TenTimesState(phase, input, 5), Halted)
  {
    var m5 := TenTimesState(phase, input, 5);
    TenTimesStep3(phase, input);
    RunNext(TenTimesState(phase, input, 3), TenTimesState(phase, input, 4), 3);
    TenTimesStep4(phase, input);
    RunNext(TenTimesState(phase, input, 4), m5, 2);
    assert m5.mem[14] == 99;
    HaltAt(m5);
    RunStop(m5, m5, Halted, 1);
  }

  lemma TenTimesRun(phase: int, input: int)
    requires I32_MIN <= 10 * input + phase <= I32_MAX && I32_MIN <= 10 * input <= I32_MAX
    ensures Run(TenTimesState(phase, input, 0), 6) == (TenTimesState(phase, input, 5), Halted)
  {
    TenTimesRunReads(phase, input);
    TenTimesRunWrites(phase, input);
  }

  lemma TenTimesLog(phase: int, input: int)
    ensures Written(TenTimesState(phase, input, 5).io.log) == [10 * input + phase]
  {
    var log := [Prompted, Prompted, Wrote(10 * input + phase)];
    assert TenTimesState(phase, input, 5).io.log == log;
    assert log[1..] == [Prompted, Wrote(10 * input + phase)];
    assert log[1..][1..] == [Wrote(10 * input + phase)];
    assert Written(log[1..][1..]) == [10 * input + phase];
  }

  /** On the first interpreter too the first test program outputs ten times its input plus its phase. */
  lemma TenTimesPlusPhaseStage(phase: int, input: int)
    requires I32_MIN <= 10 * input + phase <= I32_MAX && I32_MIN <= 10 * input <= I32_MAX
    ensures Stage(Day7.TenTimesPlusPhase, phase, input, 6) == Ok(10 * input + phase)
  {
    TenTimesRun(phase, input);
    TenTimesLog(phase, input);
    StageMeaning(Day7.TenTimesPlusPhase, phase, input, 6);
  }

  /** With phases 4,3,2,1,0 the chain outputs 43210, the test's maximum. */
  lemma TenTimesPlusPhaseChain()
    ensures Chain(Day7.TenTimesPlusPhase, [4, 3, 2, 1, 0], 6) == Ok(43210)
  {
    TenTimesPlusPhaseStage(4, 0);
    TenTimesPlusPhaseStage(3, 4);
    TenTimesPlusPhaseStage(2, 43);
    TenTimesPlusPhaseStage(1, 432);
    TenTimesPlusPhaseStage(0, 4321);
    assert [4, 3, 2, 1, 0][1..] == [3, 2, 1, 0];
    assert [3, 2, 1, 0][1..] == [2, 1, 0];
    assert [2, 1, 0][1..] == [1, 0];
    assert [1, 0][1..] == [0];
  }
}
