# Advent of Code 2019 in Dafny: the Intcode machine and the puzzle solvers

This project models a Rust workspace of Advent of Code 2019 solutions and proves
properties of the model. It covers:

- the 2019 Intcode virtual machine (`2019/intcode`): program parsing,
  instruction decoding, the sparse memory, the interpreter loop, the copy-back
  of memory to the caller, and the ASCII adapter that turns lines into numbers;
- the first versions that sit at the root of the workspace: the `i32`
  interpreter (`intcode`), the add/multiply interpreter of `day5`, and the
  first solutions of days 1, 4 and 7;
- the 2019 solvers of days 1, 3, 4, 6, 7, 8, 10, 11, 13, 14, 15, 16, 17, 18
  and 23.

Each source file becomes one Dafny module, with one exception: the 2019
Intcode crate's `lib.rs` is split into the machine (`Intcode`) and its ASCII
adapter (`IntcodeAscii`). Pure code (parsers, geometry, counting, recursion)
becomes datatypes, functions and lemmas. Code that updates state step by step
becomes methods with loops. Every such method is proved equal to a
specification function, except the path searches `Day17.MakeCommandList`,
`Day18.ShortestPathFrom` and `Day18.FindShortestPath`, which are proved sound
only (see "Left out"). The machine's and the game's objects whose fields
change in place become classes.

The Intcode machine is specified by `Step` (one instruction) and `Run` (at most
`fuel` instructions); the class `CpuState` is proved to compute exactly that.
The machine's I/O is a scripted port. It holds the numbers still to be read,
the error a read returns once they run out, an optional error for every write,
and a log of prompts and writes in order. Rust panics are handled in two ways.
Where the panic depends only on the arguments, it becomes a precondition.
Where it depends on the run (an index past a slice, a failed `unwrap`), it
becomes a `Panicked` status or a `None` result. The one exception is the UTF-8
check of the ASCII adapter's output lines, listed under "Left out".

Rust's fixed-width integers are unbounded integers here. Where the width
matters, it is written out: the parse range checks, the overflow checks the
first interpreters depend on, the `as u8` cast of the ASCII adapter, and the
truncating `/` and `%` (`Common.TDiv`, `Common.TRem`).

## Model

| member | source | states |
|---|---|---|
| Intcode.ParseTokens | 2019/intcode/src/lib.rs:67-77 | the tokens parse exactly when every one is an `i64`; then the result holds their values in order; otherwise the error is `ProgramParseError` |
| Intcode.ParseProgram | 2019/intcode/src/lib.rs:67-77 | the push loop over the trimmed, comma-split text returns exactly `ProgramOf(input)` |
| Intcode.ProgramTextRoundTrip | 2019/intcode/src/lib.rs:67-77 | parsing the comma-joined decimal text of any nonempty program of `i64` words gives that program back |
| Intcode.ParseEmptyText | 2019/intcode/src/lib.rs:584 | the empty text does not parse |
| Intcode.ParseWord | 2019/intcode/src/lib.rs:585 | `turtle` does not parse |
| Intcode.ParseSingleWord | 2019/intcode/src/lib.rs:586 | `0` parses to `[0]` |
| Intcode.ParseTwoWords | 2019/intcode/src/lib.rs:587 | `1,2` parses to `[1, 2]` |
| Intcode.ParseParameterMode | 2019/intcode/src/lib.rs:98-105 | digits 0, 1 and 2 are exactly the modes, and each maps back to its digit; any other digit is `InvalidParameterMode` |
| Intcode.ParseModes | 2019/intcode/src/lib.rs:107-139 | the first `n` mode digits are read in operand order; the result is Ok exactly when all are valid, and then each mode matches its digit |
| Intcode.ParseInstruction | 2019/intcode/src/lib.rs:107-160 | the opcode is the truncating `instruction % 100`; an unknown one is `InvalidOpCode` of that remainder; a bad mode digit is `InvalidParameterMode`; a word above `10^(2+n)-1` is `InvalidOpCode` of the word; otherwise the opcode number decodes |
| Intcode.DecodeEncode | 2019/intcode/src/lib.rs:107-160 | decoding the canonical word of any opcode gives that opcode back |
| Intcode.EncodeDecode | 2019/intcode/src/lib.rs:107-160 | every word that decodes is the canonical word of its opcode, so decoding is injective |
| Intcode.NegativeWordExample | 2019/intcode/src/lib.rs:108 | with Rust's truncating `%`, the words -1 and -199 are invalid opcodes and do not decode as `Exit` |
| Intcode.MaxWordExamples | 2019/intcode/src/lib.rs:141-160 | `1002` decodes to Multiply(Position, Immediate, Position); a mode digit beyond the operands (`1104`, `399`, `100001`) is an invalid opcode; mode digit 3 is an invalid mode |
| Intcode.ReadAfterWrite | 2019/intcode/src/lib.rs:294-311 | a store is seen by the next load of the same cell and leaves every other cell as it was |
| Intcode.NegativeAddresses | 2019/intcode/src/lib.rs:294-311 | loads and stores fail exactly at negative addresses, with `IndexOutOfRange` |
| Intcode.LoadedReads | 2019/intcode/src/lib.rs:281-302 | after `create`, word i of the program is at address i and every other non-negative address reads 0 |
| Intcode.OperandModes | 2019/intcode/src/lib.rs:313-328 | an immediate operand is the word after the opcode; a position operand is the cell that word names; a relative operand is the cell at the relative base plus that word |
| Intcode.Finish | 2019/intcode/src/lib.rs:410-417 | `execute` reports success exactly when the inner loop halted or stopped on `UserInitiatedExit`; every other error passes through unchanged |
| Intcode.StepMovesPc | 2019/intcode/src/lib.rs:334-408 | a non-jump instruction moves the program counter past itself and its operands; a jump goes to its target when taken and three cells on when not |
| Intcode.StepWritesOneCell | 2019/intcode/src/lib.rs:337-358 | Add, Multiply, LessThan, Equals and Input change only the cell their last operand names; the binary ones store `Combine` of their two loaded operands, and Input stores the number it read |
| Intcode.StepKeepsOtherState | 2019/intcode/src/lib.rs:334-408 | every other instruction leaves memory alone, and only opcode 9 moves the relative base, by its operand |
| Intcode.StepIo | 2019/intcode/src/lib.rs:353-362 | Input prompts once and takes exactly one number; Output logs exactly its operand; no other instruction touches the port |
| Intcode.StepStopsFinished | 2019/intcode/src/lib.rs:334-408 | a step that stops has halted or failed, never both |
| Intcode.RunMoreFuel | 2019/intcode/src/lib.rs:334-408 | once the machine has halted or failed, more fuel changes nothing |
| Intcode.RunSplit | 2019/intcode/src/lib.rs:334-408 | a run of `a + b` steps is a run of `a` steps followed by a run of `b`, wherever the machine is still running |
| Intcode.CpuState.Create | 2019/intcode/src/lib.rs:281-292 | the new machine's state is `Initial`: the program loaded at addresses 0 up, both registers zero |
| Intcode.CpuState.LoadRaw | 2019/intcode/src/lib.rs:294-302 | the result is `Read` of the memory map |
| Intcode.CpuState.StoreRaw | 2019/intcode/src/lib.rs:304-311 | succeeds exactly when `Write` does, and then the memory is the written map; a failed store leaves memory as it was |
| Intcode.CpuState.LoadEffectiveAddress | 2019/intcode/src/lib.rs:313-324 | the result is `EffectiveAddress` of the current state |
| Intcode.CpuState.Load | 2019/intcode/src/lib.rs:326-328 | the result is `LoadOperand` of the current state |
| Intcode.CpuState.Store | 2019/intcode/src/lib.rs:330-332 | the memory becomes `StoreOperand` of the old state when that succeeds, and is unchanged otherwise |
| Intcode.CpuState.StepOnce | 2019/intcode/src/lib.rs:336-406 | one trip round the loop leaves the machine in the state `Step` gives, and it stops exactly when `Step` stops, with the same status |
| Intcode.CpuState.InputStep | 2019/intcode/src/lib.rs:353-358 | the Input arm does what `InputOp` says: prompt, read, store, or stop at the first error |
| Intcode.CpuState.OutputStep | 2019/intcode/src/lib.rs:359-362 | the Output arm does what `OutputOp` says |
| Intcode.CpuState.AdjustStep | 2019/intcode/src/lib.rs:399-402 | the relative-base arm does what `AdjustOp` says |
| Intcode.CpuState.BinaryOp | 2019/intcode/src/lib.rs:337-352 | the Add, Multiply, LessThan and Equals arms do what `Binary` says |
| Intcode.CpuState.JumpOp | 2019/intcode/src/lib.rs:363-376 | the two jump arms do what `Jump` says |
| Intcode.CpuState.ExecuteInner | 2019/intcode/src/lib.rs:334-408 | the loop ends in exactly the state and status that `Run` gives for the same fuel |
| Intcode.CpuState.Execute | 2019/intcode/src/lib.rs:410-417 | the state is `Run`'s, and the status is `Finish` of `Run`'s status |
| Intcode.ExecuteWithIo | 2019/intcode/src/lib.rs:419-433 | status, caller's slice and port after the call are `RunProgram`'s; the slice gets the first `mem.Length` cells back only after a successful run |
| Intcode.AddExample | 2019/intcode/src/lib.rs:599 | `1,0,0,0,99` halts as `2,0,0,0,99` |
| Intcode.MultiplyExample | 2019/intcode/src/lib.rs:600 | `2,3,0,3,99` halts as `2,3,0,6,99` |
| Intcode.SquareExample | 2019/intcode/src/lib.rs:601 | `2,4,4,5,99,0` halts as `2,4,4,5,99,9801` |
| Intcode.SelfModifyingExample | 2019/intcode/src/lib.rs:602 | `1,1,1,4,99,5,6,0,99` halts as `30,1,1,4,2,5,6,0,99`, where the first store rewrites the second instruction |
| Intcode.ImmediateExample | 2019/intcode/src/lib.rs:603 | `1002,4,3,4,33` halts as `1002,4,3,4,99` |
| Intcode.EchoExample | 2019/intcode/src/lib.rs:615 | `3,0,4,0,99` with input 42 prompts once, writes 42 and halts |
| Intcode.PositionCompareExample | 2019/intcode/src/lib.rs:616-642 | `3,9,8,9,10,9,4,9,99,-1,8` and `3,9,7,9,10,9,4,9,99,-1,8`, for every input, prompt once, write 1 exactly when the input equals 8 (is less than 8), halt, and leave that answer in cell 9 |
| Intcode.ImmediateCompareExample | 2019/intcode/src/lib.rs:643-669 | `3,3,1108,-1,8,3,4,3,99` and `3,3,1107,-1,8,3,4,3,99`, for every input, prompt once, write 1 exactly when the input equals 8 (is less than 8), halt, and leave that answer in cell 3 |
| Intcode.PositionJumpExample | 2019/intcode/src/lib.rs:671-686 | `3,12,6,12,15,1,13,14,13,4,13,99,-1,0,1,9`, for every input, prompts once, writes 0 for input 0 and 1 otherwise, and halts |
| Intcode.ImmediateJumpExample | 2019/intcode/src/lib.rs:687-702 | `3,3,1105,-1,9,1101,0,0,12,4,12,99,1`, for every input, prompts once, writes 0 for input 0 and 1 otherwise, and halts |
| Intcode.AroundEightExample | 2019/intcode/src/lib.rs:703-732 | `AROUND_EIGHT`, for every input, prompts once, writes 999 below 8, 1000 at 8 and 1001 above 8, and halts |
| Intcode.QuineExample | 2019/intcode/src/lib.rs:774-781 | the relative-base quine writes its own sixteen words in order, halts, and leaves its memory as it was |
| Intcode.ClosedInputExample | 2019/intcode/src/lib.rs:735-746 | `AROUND_EIGHT` with its input closed fails with the receive error at the first read; the caller's memory is unchanged and the log holds the one prompt |
| Intcode.ClosedOutputExample | 2019/intcode/src/lib.rs:748-759 | `AROUND_EIGHT` given 0 with its output closed reads, branches below 8 and fails with the send error at the write of 999, leaving the memory unchanged |
| Intcode.LargeProductExample | 2019/intcode/src/lib.rs:763-768 | `1102,34915192,34915192,7,4,7,99,0` writes 1219070632396864 |
| Intcode.LargeOutputExample | 2019/intcode/src/lib.rs:770 | `104,1125899906842624,99` writes its large immediate operand |
| Intcode.FailedRunKeepsMemory | 2019/intcode/src/lib.rs:419-425 | a run that fails after a store leaves the caller's memory as it was |
| IntcodeAscii.AsciiRead | 2019/intcode/src/lib.rs:529-540 | a pending unit is popped from the top of the stack; an empty stack with no line left fails with the caller's error and leaves the pushed newline behind; the output side is untouched |
| IntcodeAscii.AsByte | 2019/intcode/src/lib.rs:548 | `num as u8` lies in 0..255 and keeps every number that already is a byte |
| IntcodeAscii.AsciiWrite | 2019/intcode/src/lib.rs:542-552 | a non-newline is kept as its low byte; a newline hands the collected bytes over as one line and clears the buffer, failing exactly when the caller fails; the input side is untouched |
| IntcodeAscii.ReadLine | 2019/intcode/src/lib.rs:529-540 | with nothing pending, the next line is read back unit by unit and then a newline, after which the stack is empty and the caller has moved on one line |
| IntcodeAscii.FailedFetchLeavesNewline | 2019/intcode/src/lib.rs:531-535 | after a failed fetch, the next read returns the newline without asking the caller again |
| IntcodeAscii.WriteCollects | 2019/intcode/src/lib.rs:542-552 | numbers without a newline are only collected, as their low bytes |
| IntcodeAscii.WriteLine | 2019/intcode/src/lib.rs:542-552 | numbers ended by a newline reach the caller as one line: the bytes collected before, then theirs; the buffer is empty again afterwards |
| IntcodeAscii.AsciiCpuState.Create | 2019/intcode/src/lib.rs:512-518 | both buffers start empty |
| IntcodeAscii.AsciiCpuState.PromptForNumber | 2019/intcode/src/lib.rs:525-527 | the adapter never prompts and always succeeds |
| IntcodeAscii.AsciiCpuState.ReadNumber | 2019/intcode/src/lib.rs:529-540 | result and new state are `AsciiRead` of the old state |
| IntcodeAscii.AsciiCpuState.WriteNumber | 2019/intcode/src/lib.rs:542-552 | result and new state are `AsciiWrite` of the old state |
| Common.TruncatedDivision | 2019/intcode/src/lib.rs:108-139 | Rust's truncating quotient and remainder recombine to the dividend |
| Common.ParseShow | 2019/intcode/src/lib.rs:70 | parsing the decimal rendering of any in-range integer gives it back |
| Common.ParseRejectsBareSign | 2019/intcode/src/lib.rs:70 | a sign with no digits after it does not parse |
| Common.SplitJoin | 2019/intcode/src/lib.rs:69 | splitting joined pieces on a separator none of them holds gives the pieces back |
| Common.SplitOnJoin | 2019/day14/src/main.rs:26-30 | splitting joined pieces on a string separator gives the pieces back when no match can start inside a piece |
| LegacyIntcode.ParseTokens | intcode/src/lib.rs:64-75 | the tokens parse exactly when every one is an `i32`; then the values are in order; otherwise `ProgramParseError` |
| LegacyIntcode.ParseProgram | intcode/src/lib.rs:64-75 | the push loop returns exactly `ProgramOf(input)` |
| LegacyIntcode.ProgramTextRoundTrip | intcode/src/lib.rs:64-75 | the text of any nonempty program of `i32` words parses back to it |
| LegacyIntcode.ParseEmptyText | intcode/src/lib.rs:352 | the empty text does not parse |
| LegacyIntcode.ParseWord | intcode/src/lib.rs:353 | `turtle` does not parse |
| LegacyIntcode.ParseShortPrograms | intcode/src/lib.rs:354-355 | `0` and `1,2` parse to `[0]` and `[1, 2]` |
| LegacyIntcode.ParseParameterMode | intcode/src/lib.rs:93-99 | only digits 0 and 1 are modes |
| LegacyIntcode.ParseModes | intcode/src/lib.rs:101-129 | the first `n` mode digits are read in operand order; Ok exactly when all are 0 or 1 |
| LegacyIntcode.ParseInstruction | intcode/src/lib.rs:101-149 | the opcode is the truncating `instruction % 100`, Input takes no mode, a bad mode digit is `InvalidParameterMode`, and an unknown opcode or a too-large word is `InvalidOpCode` |
| LegacyIntcode.DecodeEncode | intcode/src/lib.rs:101-149 | decoding the canonical word of any opcode gives it back |
| LegacyIntcode.EncodeDecode | intcode/src/lib.rs:101-149 | every word that decodes is the canonical word of its opcode |
| LegacyIntcode.DecodeExamples | intcode/src/lib.rs:101-149 | `1002` is Multiply(Position, Immediate); mode digit 2 is invalid; `103`, `1104` and `-1` are invalid opcodes |
| LegacyIntcode.GetUsize | intcode/src/lib.rs:151-156 | succeeds exactly for a cell inside the slice holding a non-negative value; a negative value is `IndexOutOfRange`; an index outside the slice panics |
| LegacyIntcode.StepWritesOneCell | intcode/src/lib.rs:234-303 | the slice is never resized; a binary instruction stores its in-range `i32` result at `mem[pc+3]`, Input stores the next number at `mem[pc+1]`, and nothing else writes |
| LegacyIntcode.StepMovesPc | intcode/src/lib.rs:234-303 | binary instructions move on 4, Input and Output 2, and a jump goes to its target when taken and 3 on when not |
| LegacyIntcode.StepKeepsLength | intcode/src/lib.rs:234-303 | a step never resizes the slice, and one that stops leaves it as it was |
| LegacyIntcode.RunKeepsLength | intcode/src/lib.rs:234-303 | a whole run never resizes the slice |
| LegacyIntcode.RunMoreFuel | intcode/src/lib.rs:234-303 | a stopped machine stays stopped whatever the fuel |
| LegacyIntcode.ExecuteInner | intcode/src/lib.rs:234-303 | the array-based loop leaves the array, status and I/O that `Execution` gives, stores made before an error included |
| LegacyIntcode.ExecuteStep | intcode/src/lib.rs:240-301 | one trip round the loop on the array is `Step` of the machine |
| LegacyIntcode.OutputStep | intcode/src/lib.rs:258-261 | the Output arm is `OutputOp` |
| LegacyIntcode.BinaryStep | intcode/src/lib.rs:242-251 | the Add, Multiply, LessThan and Equals arms are `Binary` |
| LegacyIntcode.InputStep | intcode/src/lib.rs:252-257 | the Input arm is `InputOp`: prompt, resolve the destination, read, store |
| LegacyIntcode.JumpStep | intcode/src/lib.rs:262-281 | the jump arms are `Jump`, with a negative taken target an `IndexOutOfRange` error |
| LegacyIntcode.AddExample | intcode/src/lib.rs:367 | `1,0,0,0,99` halts as `2,0,0,0,99` |
| LegacyIntcode.MultiplyExample | intcode/src/lib.rs:368 | `2,3,0,3,99` halts as `2,3,0,6,99` |
| LegacyIntcode.SquareExample | intcode/src/lib.rs:369 | `2,4,4,5,99,0` halts as `2,4,4,5,99,9801` |
| LegacyIntcode.SelfModifyingExample | intcode/src/lib.rs:370 | `1,1,1,4,99,5,6,0,99` halts as `30,1,1,4,2,5,6,0,99` |
| LegacyIntcode.ImmediateExample | intcode/src/lib.rs:371 | `1002,4,3,4,33` halts as `1002,4,3,4,99` |
| LegacyIntcode.EchoExample | intcode/src/lib.rs:383 | `3,0,4,0,99` with input 42 prompts once, writes 42 and halts with 42 stored |
| LegacyIntcode.EqualsEightExample | intcode/src/lib.rs:385-389 | `3,9,8,9,10,9,4,9,99,-1,8` with input 8 writes 1 |
| LegacyIntcode.StorePastEndPanics | intcode/src/lib.rs:242-246 | a store through an index past the slice panics |
| LegacyIntcode.FetchPastEndPanics | intcode/src/lib.rs:241 | running off the end of the program panics at the fetch, with earlier stores kept |
| LegacyIntcode.OverflowPanics | intcode/src/lib.rs:247-251 | `65536 * 65536` overflows `i32` and panics |
| LegacyIntcode.NegativeJumpExample | intcode/src/lib.rs:262-270 | a taken jump to a negative target is `IndexOutOfRange` |
| LegacyDay5.ParseTokens | day5/src/main.rs:26-36 | the tokens parse exactly when every one is a `u32` (an optional `+`, no `-`, no trimming); otherwise `ProgramParseError` |
| LegacyDay5.ParseProgram | day5/src/main.rs:26-36 | the push loop returns exactly `ProgramOf(input)` |
| LegacyDay5.ParsedIsU32 | day5/src/main.rs:26-36 | a parsed program holds only `u32` values |
| LegacyDay5.ProgramTextRoundTrip | day5/src/main.rs:26-36 | the text of any nonempty `u32` program parses back to it |
| LegacyDay5.ParseEmptyText | day5/src/main.rs:80 | the empty text does not parse |
| LegacyDay5.ParseWord | day5/src/main.rs:81 | `turtle` does not parse |
| LegacyDay5.ParseShortPrograms | day5/src/main.rs:82-83 | `0` and `1,2` parse to `[0]` and `[1, 2]` |
| LegacyDay5.RejectedTexts | day5/src/main.rs:26-36 | `-1` is not a `u32`, and a trailing newline is not trimmed |
| LegacyDay5.RunKeepsShape | day5/src/main.rs:45-67 | a run keeps the slice's length and every cell a `u32` |
| LegacyDay5.NeverIndexOutOfRange | day5/src/main.rs:38-43 | `IndexOutOfRange` never happens: a run halts, panics or meets an invalid opcode |
| LegacyDay5.HaltedAtExit | day5/src/main.rs:45-67 | a halted run stopped on a 99 that is still in memory |
| LegacyDay5.Execute | day5/src/main.rs:45-67 | the in-place loop leaves the array and outcome that `Execution` gives |
| LegacyDay5.ArithmeticStep | day5/src/main.rs:49-62 | one add or multiply either stores its result, and the run goes on four cells later, or panics with memory unchanged |
| LegacyDay5.ExecuteExamples | day5/src/main.rs:95-97 | the add, multiply and square tests halt with the expected memory |
| LegacyDay5.SelfModifyingExample | day5/src/main.rs:98 | `1,1,1,4,99,5,6,0,99` halts as `30,1,1,4,2,5,6,0,99` |
| LegacyDay5.InputIsInvalid | day5/src/main.rs:64 | opcode 3 is invalid on this machine |
| LegacyDay5.OverflowPanics | day5/src/main.rs:57 | a product beyond `u32` panics and leaves memory unchanged |
| LegacyDay4.Validity | day4/src/main.rs:9-41 | this version fails monotonicity exactly when the digits decrease somewhere, and is valid exactly when the rewrite's part 1 is |
| LegacyDay4.IsValidPassword | day4/src/main.rs:9-41 | the digit loop returns exactly `Validity(password)` |
| LegacyDay4.OnlySixDigits | day4/src/main.rs:32-33 | a number that is not six digits long is never valid |
| LegacyDay4.Examples | day4/src/main.rs:58-67 | 111111 is valid, 223450 is not monotone, 123789 has no repeated digit |
| LegacyDay1.Fuel | day1/src/main.rs:3-5 | the truncating `mass / 3 - 2`: a third of the mass less two for non-negative masses, -2 for small ones, and always an `i32` for an `i32` mass |
| LegacyDay1.SmallMasses | day1/src/main.rs:3-5 | without a clamp, masses below 6 need negative fuel |
| LegacyDay1.TotalAppend | day1/src/main.rs:8-12 | the total splits over a concatenation of inputs |
| LegacyDay1.TotalSwap | day1/src/main.rs:8-12 | the total does not depend on the order of the masses |
| LegacyDay1.TotalFuel | day1/src/main.rs:8-12 | the summation loop gives the total when every running total fits `i32`, and `None`, where a debug build panics, otherwise |
| LegacyDay1.Examples | day1/src/main.rs:24-27 | 12, 14, 1969 and 100756 need 2, 2, 654 and 33583 |
| LegacyDay7.StageMeaning | day7/src/main.rs:40-52 | a stage yields a value exactly when its run halts having written exactly one number that fits `i32`, and the value is that number |
| LegacyDay7.RunStage | day7/src/main.rs:40-52 | one amplifier run on a fresh copy of the program returns `Stage` |
| LegacyDay7.RunAmplifierControllerProgram | day7/src/main.rs:36-54 | the loop returns `Chain`: input 0, each stage's output feeding the next |
| LegacyDay7.FindMaxThruster | day7/src/main.rs:56-64 | the result is the largest chain output over `permutation(0, 5)`, starting from `i32::MIN` |
| LegacyDay7.TenTimesPlusPhaseStage | day7/src/main.rs:118-120 | the first test program outputs ten times its input plus its phase |
| LegacyDay7.TenTimesPlusPhaseChain | day7/src/main.rs:118-120 | with phases 4,3,2,1,0 that program's chain outputs 43210 |
| Day1.Fuel | 2019/day1/src/main.rs:3-9 | masses below 9 need no fuel; from 6 on the fuel is a third of the mass rounded down, less two; a positive mass needs less fuel than itself |
| Day1.FuelIncludingFuel | 2019/day1/src/main.rs:11-18 | the total is at least the fuel for the mass alone and less than any positive mass |
| Day1.FuelMonotone | 2019/day1/src/main.rs:3-9 | more mass never needs less fuel |
| Day1.IncludingFuelBound | 2019/day1/src/main.rs:11-18 | fuel for fuel adds at most half again: twice the total is at most the mass |
| Day1.IncludingFuelMonotone | 2019/day1/src/main.rs:11-18 | the total with fuel for fuel also grows with the mass |
| Day1.FuelExamples | 2019/day1/src/main.rs:40-44 | 0, 12, 14, 1969 and 100756 need 0, 2, 2, 654 and 33583 |
| Day1.IncludingFuelExamples | 2019/day1/src/main.rs:45-47 | with fuel for fuel, 14, 1969 and 100756 need 2, 966 and 50346 |
| Day3.GetMoveForSpec | 2019/day3/src/main.rs:30-60 | a movement is a direction letter then a nonzero `u32`; the letter gives the unit step; text shorter than two characters, a bad letter, a bad count and a zero count are all `LineParseError` |
| Day3.SpecRoundTrip | 2019/day3/src/main.rs:30-60 | every movement with a `u32` count survives being written out as letter and count and parsed back |
| Day3.RejectedSpecs | 2019/day3/src/main.rs:153-156 | ``, `R`, `Z2` and `RR` are rejected |
| Day3.AcceptedRight | 2019/day3/src/main.rs:158-164 | `R3` is three steps right |
| Day3.AcceptedTwoDigits | 2019/day3/src/main.rs:165-171 | `L33` is 33 steps left |
| Day3.AcceptedUp | 2019/day3/src/main.rs:172-178 | `U6` is six steps up |
| Day3.AcceptedThreeDigits | 2019/day3/src/main.rs:179-185 | `D333` is 333 steps down |
| Day3.ParseMoves | 2019/day3/src/main.rs:72-73 | a path parses when every piece is a movement, into those movements in order; otherwise `LineParseError` |
| Day3.BadPieceFails | 2019/day3/src/main.rs:72-73 | a bad piece fails the whole path, whatever follows it |
| Day3.SegmentCells | 2019/day3/src/main.rs:75-82 | cell i of a movement's segment lies i + 1 steps from where it starts |
| Day3.LatestVisitsMeaning | 2019/day3/src/main.rs:62-83 | the map holds exactly the visited cells, each with the step count of its last visit; the origin appears only when the wire comes back to it |
| Day3.WalkMovement | 2019/day3/src/main.rs:75-82 | the inner loop extends the trace by the movement's segment and keeps position, length and map in step with it |
| Day3.ParseWireLocation | 2019/day3/src/main.rs:62-83 | the result is the parse error of the path, or the latest-visit map of the whole walk |
| Day3.VisitOneMore | 2019/day3/src/main.rs:80-81 | inserting the next cell gives the map of the longer trace |
| Day3.WalkExample | 2019/day3/src/main.rs:62-83 | `R2,U1` visits (1,0), (2,0) and (2,1) at steps 1, 2 and 3 |
| Day3.RevisitExample | 2019/day3/src/main.rs:62-83 | a cell visited twice keeps its later step count |
| Day3.FindClosestIntersectionByManhattan | 2019/day3/src/main.rs:93-109 | `None` exactly when the wires share no cell; otherwise the Manhattan distance of a shared cell that no other shared cell beats |
| Day3.FindClosestIntersectionByWireLength | 2019/day3/src/main.rs:111-127 | `None` exactly when the wires share no cell; otherwise the summed step counts of a shared cell that no other shared cell beats |
| Day4.Digits | 2019/day4/src/main.rs:9-48 | every digit is below 10 and a positive number does not start with 0 |
| Day4.IsValidPassword | 2019/day4/src/main.rs:9-48 | the right-to-left digit loop returns exactly `Validity`: a descent is `NotMonotonicallyIncreasing`, then a length other than six, then no adjacent pair |
| Day4.IsValidPassword2 | 2019/day4/src/main.rs:50-110 | the `DigitState` loop returns exactly `Validity2`, where the repeat must be a run of exactly two |
| Day4.NextState | 2019/day4/src/main.rs:71-97 | one transition of the digit state machine keeps the state equal to the front run of the digits seen and the flag equal to an exact pair among the closed runs |
| Day4.ClosedRuns | 2019/day4/src/main.rs:50-110 | an exact pair is either the front run or among the runs after it |
| Day4.Part2ImpliesPart1 | 2019/day4/src/main.rs:50-110 | every part 2 password is also a part 1 password |
| Day4.Part1Valid | 2019/day4/src/main.rs:136 | 111111 is valid |
| Day4.Part1NotMonotone | 2019/day4/src/main.rs:137-140 | 223450 is not monotone |
| Day4.Part1NoRepeat | 2019/day4/src/main.rs:141-144 | 123789 has no repeated digits |
| Day4.Part2Valid | 2019/day4/src/main.rs:149-154 | 112233 and 111122 are valid under part 2 |
| Day4.Part2NoExactPair | 2019/day4/src/main.rs:150-153 | 123444 has no run of exactly two |
| Day6.Register | 2019/day6/src/main.rs:40-50 | a known name keeps its index; a new one becomes a parentless object at the end; the map stays consistent |
| Day6.AddOrbitTo | 2019/day6/src/main.rs:52-63 | both names are registered; the orbiter gets its parent unless it already has one, which is `DuplicateEntry` |
| Day6.AddLinesTo | 2019/day6/src/main.rs:65-74 | the map stays consistent, every known name keeps its index, every recorded parent stays, and the only errors are `ParseError` and `DuplicateEntry` |
| Day6.AddLinesRecords | 2019/day6/src/main.rs:65-74 | when every line is applied, each line is two names split on `)`, and the second is recorded as orbiting the first |
| Day6.AddLinesAppend | 2019/day6/src/main.rs:65-74 | applying two runs of lines in turn is applying them together, the first error stopping the rest |
| Day6.AddLinesParseError | 2019/day6/src/main.rs:66-70 | the first line that does not split into two names ends the run with `ParseError`, the lines before it applied and the rest ignored |
| Day6.AddLinesDuplicate | 2019/day6/src/main.rs:71 | the first line whose orbiter already has a parent ends the run with `DuplicateEntry`, the lines before it applied |
| Day6.OrbitMap.constructor | 2019/day6/src/main.rs:31-38 | COM alone, its own parent, registered as object 0 |
| Day6.OrbitMap.GetOrAddObject | 2019/day6/src/main.rs:40-50 | the state and index are `Register`'s |
| Day6.OrbitMap.AddOrbit | 2019/day6/src/main.rs:52-63 | the state and result are `AddOrbitTo`'s |
| Day6.OrbitMap.AddLines | 2019/day6/src/main.rs:65-74 | the state and result are `AddLinesTo`'s |
| Day6.OrbitMap.Validate | 2019/day6/src/main.rs:76-83 | `MissingLink` exactly when some object has no parent |
| Day6.OrbitMap.CountOne | 2019/day6/src/main.rs:86-94 | the loop counts the links from the object up to COM, `Depth`, and is `None` on a cycle, where the source walks for ever |
| Day6.OrbitMap.TotalNumberOfOrbits | 2019/day6/src/main.rs:85-104 | the result is `TotalOrbits`: `MissingLink`, the sum of every object's depth, or divergence on a cycle |
| Day6.DepthSumDefined | 2019/day6/src/main.rs:96-103 | the total is defined exactly when every object's walk reaches COM |
| Day6.FirstHitComplete | 2019/day6/src/main.rs:135-146 | the bounded search for a common ancestor is exact: a walk it does not find in the target set never gets there |
| Day6.FirstHitBound | 2019/day6/src/main.rs:135-146 | by pigeonhole, a walk first arrives in a set of objects after fewer links than there are objects |
| Day6.OrbitMap.CollectAncestors | 2019/day6/src/main.rs:118-133 | the first loop records each object on the walk up from `a` with its link count, COM last, and reports a loop exactly when the walk never reaches COM |
| Day6.OrbitMap.FindCommonParent | 2019/day6/src/main.rs:135-146 | the second loop climbs from `b` to the first object recorded by the first loop |
| Day6.OrbitMap.FindDistanceBetween | 2019/day6/src/main.rs:106-151 | the result is `Distance`: `MissingLink`, `NodeNotFound` for an unknown name, `Loop`, or the number of transfers |
| Day6.DistanceMeaning | 2019/day6/src/main.rs:106-151 | a distance d means both walks meet at a common ancestor with d + 2 links in all, and no earlier object on `b`'s walk lies on `a`'s walk up to there |
| Day6.RegistrationExample | 2019/day6/src/main.rs:175-186 | a second parent for `B` is refused; the map is invalid until `A` gets its parent and valid after |
| Day6.SampleTotal | 2019/day6/src/main.rs:189-205 | the sample map has 42 direct and indirect orbits |
| Day6.TransferExample | 2019/day6/src/main.rs:208-226 | YOU and SAN are four orbital transfers apart |
| Day6.CycleDiverges | 2019/day6/src/main.rs:85-104 | two objects orbiting each other make the count diverge |
| Day7.Inner | 2019/day7/src/main.rs:11-24 | `inner` appends exactly `Perms(prefix, to_perm)` to the result |
| Day7.Permutation | 2019/day7/src/main.rs:10-36 | the function returns exactly `Permutations(begin, n)` |
| Day7.PermsShape | 2019/day7/src/main.rs:11-24 | every result is the prefix followed by a rearrangement of `to_perm` |
| Day7.PermsCount | 2019/day7/src/main.rs:11-24 | `inner` produces `|to_perm|!` results |
| Day7.PermutationsAreOrderings | 2019/day7/src/main.rs:10-36 | `permutation(b, 0)` is empty, `permutation(b, 1)` is `[[b]]`, and otherwise there are `n!` distinct orderings of `b..b+n` |
| Day7.PermutationsSorted | 2019/day7/src/main.rs:10-36 | the orderings come out in strictly increasing dictionary order, so no ordering repeats |
| Day7.PermutationsOfTwo | 2019/day7/src/main.rs:170 | `permutation(b, 2)` is `[[b, b+1], [b+1, b]]` |
| Day7.PermutationsOfThree | 2019/day7/src/main.rs:171-182 | `permutation(b, 3)` lists the six orderings of the tests |
| Day7.ParseOutput | 2019/day7/src/main.rs:52-53 | the trimmed output parses exactly when the stage wrote one in-range number, and gives that number |
| Day7.StageMeaning | 2019/day7/src/main.rs:43-53 | a stage yields a value exactly when its run halts having written one in-range number, and the value is that number |
| Day7.ChainAppend | 2019/day7/src/main.rs:38-56 | running two lists of phases one after the other is running their concatenation |
| Day7.RunStage | 2019/day7/src/main.rs:43-53 | one amplifier, run on a fresh copy of the program, returns `Stage` |
| Day7.RunAmplifierControllerProgram | 2019/day7/src/main.rs:38-56 | the loop returns `Chain`: input 0, each stage's output feeding the next, the first error ending the chain |
| Day7.MaxThrustMeaning | 2019/day7/src/main.rs:58-66 | on success every setting's chain succeeds, none exceeds the answer, and the answer is the start value or some setting's output; on failure the error is that of the first failing setting |
| Day7.FindMaxThruster | 2019/day7/src/main.rs:58-66 | the loop returns `MaxThrust` over `permutation(0, 5)` from `i64::MIN` |
| Day7.TenTimesPlusPhaseStage | 2019/day7/src/main.rs:205-207 | the first test program outputs ten times its input plus its phase |
| Day7.TenTimesPlusPhaseChain | 2019/day7/src/main.rs:205-207 | with phases 4,3,2,1,0 its chain outputs 43210 |
| Day8.ChunksCount | 2019/day8/src/main.rs:36-39 | `chunks_exact` keeps only whole chunks: fewer than `n` elements are left over |
| Day8.ChunkAt | 2019/day8/src/main.rs:36-39 | chunk i is the i-th run of `n` elements |
| Day8.SingleCharParse | 2019/day8/src/main.rs:28 | `ch.to_string().parse::<u8>()` accepts exactly the decimal digits, with their values |
| Day8.ParseImageLayers | 2019/day8/src/main.rs:19-40 | the digit loop then the chunking returns exactly `ImageLayers`; a non-digit is reported even when the layer size is zero |
| Day8.ImageLayersRejects | 2019/day8/src/main.rs:26-33 | the parse fails exactly when some character is not a digit |
| Day8.ImageLayersCount | 2019/day8/src/main.rs:36-39 | an accepted input yields `len / (width * height)` layers |
| Day8.ImageLayersPixels | 2019/day8/src/main.rs:19-40 | the layers are the input's digit values cut into runs of `width * height` |
| Day8.CountColors | 2019/day8/src/main.rs:45-53 | the tally has ten entries, and entry d counts the pixels of colour d |
| Day8.FewestZerosChecksum | 2019/day8/src/main.rs:62-71 | no layers give 0; otherwise the answer is the 1s times the 2s of the first layer with the fewest zeros |
| Day8.FewestStep | 2019/day8/src/main.rs:65-70 | the next layer takes over the choice exactly when it has strictly fewer zeros |
| Day8.DecodeMeaning | 2019/day8/src/main.rs:75-85 | the fold panics exactly on a pixel other than 0, 1 or 2, and otherwise each pixel shows its top non-transparent colour, or 255 |
| Day8.TransparentExample | 2019/day8/src/main.rs:75-85 | a fully transparent stack shows 255 everywhere |
| Day8.StackExample | 2019/day8/src/main.rs:75-85 | the top layer covers the one below except where it is transparent |
| Day8.BadPixelExample | 2019/day8/src/main.rs:82 | a pixel of colour 3 makes the fold panic |
| Day10.ParseLine | 2019/day10/src/main.rs:31-38 | an accepted line has one cell per character, each `.` or `#`, the cell true exactly for `#` |
| Day10.ParseLinesRectangular | 2019/day10/src/main.rs:39-44 | every row kept is as long as the first |
| Day10.ParseMapMeaning | 2019/day10/src/main.rs:27-58 | a parsed map has at least one row; its height is the row count, and every row has its width |
| Day10.Parse | 2019/day10/src/main.rs:27-58 | the two loops return exactly `ParseMap`: `UnexpectedCharacter`, `UnevenLineLength`, `NoLines`, or the map |
| Day10.ParseExample | 2019/day10/src/main.rs:171-186 | the test map is 3 wide and 2 high, with its one asteroid at (1, 0) |
| Day10.ReduceMeaning | 2019/day10/src/main.rs:93-94 | the reduced fraction has positive coprime parts that the gcd multiplies back into the numbers |
| Day10.ReduceScale | 2019/day10/src/main.rs:93-94 | scaling both numbers leaves the reduced fraction unchanged |
| Day10.GetDeltaMeaning | 2019/day10/src/main.rs:78-107 | no key exactly for the site itself; fixed keys on the axes, with up being `(0, 1)`; otherwise nonzero coprime components with the offset's signs, which the gcd multiplies back into the offset |
| Day10.GetDeltaAlongRay | 2019/day10/src/main.rs:78-107 | points further along the same ray from the site get the same key |
| Day10.AsteroidsMeaning | 2019/day10/src/main.rs:115-117 | the listed sites are exactly the cells holding an asteroid |
| Day10.TallyMeaning | 2019/day10/src/main.rs:119-124 | the count map has a key for each distinct direction, holding how often it occurs |
| Day10.PlacementMeaning | 2019/day10/src/main.rs:109-133 | a site's map has a key exactly for the direction of each other asteroid, counting the asteroids in it, so `num_detectable` is the number of distinct directions |
| Day10.DirectionsMeaning | 2019/day10/src/main.rs:115-127 | every asteroid other than the site contributes its direction, and every direction comes from such an asteroid |
| Day10.CountAsteroidsInLineOfSight | 2019/day10/src/main.rs:109-133 | the two loops return exactly `Placement` |
| Day10.CountRow | 2019/day10/src/main.rs:116-126 | the inner loop adds the directions of the row's asteroids to the tally |
| Day10.BestMeaning | 2019/day10/src/main.rs:135-154 | there is no answer exactly when there are no candidates; otherwise it is the first candidate that detects the most |
| Day10.NumDetectableMeaning | 2019/day10/src/main.rs:135-154 | `NoAsteroids` exactly when the field has none; otherwise the answer is the placement of the first asteroid, in row-major order, from which the most directions are seen |
| Day10.GetNumDetectable | 2019/day10/src/main.rs:135-154 | the two loops return exactly `NumDetectableResult` |
| Day10.BestInRow | 2019/day10/src/main.rs:137-147 | the inner loop keeps the best over the sites so far plus the row's asteroids |
| Day10.Consider | 2019/day10/src/main.rs:139-145 | a candidate replaces the best so far only with strictly more detected directions |
| Day11.TurnsInverse | 2019/day11/src/main.rs:17-35 | turning left undoes turning right and the other way round |
| Day11.TurnsCycle | 2019/day11/src/main.rs:27-34 | four right turns come back to the start, and no fewer do |
| Day11.Move | 2019/day11/src/main.rs:44-63 | a move goes to a neighbouring panel, up being towards smaller y and down towards larger y |
| Day11.MoveBack | 2019/day11/src/main.rs:44-63 | turning round and moving again returns to the panel just left |
| Day11.WriteMeaning | 2019/day11/src/main.rs:91-122 | a write switches between awaiting paint and awaiting a turn; a paint write records its colour under the robot, which the camera then reads as 1 for white and 0 otherwise, and changes no other panel and no movement; a turn write paints nothing, turns left on 0 and right on 1, and moves one panel |
| Day11.WritesAlternate | 2019/day11/src/main.rs:97-122 | after a run of writes the robot awaits the same command exactly when the number of writes is even |
| Day11.WritesPaint | 2019/day11/src/main.rs:97-122 | painted panels stay painted, and at most one new panel is painted per paint command, so n writes paint at most (n + 1) / 2 new panels |
| Day11.State.New | 2019/day11/src/main.rs:80-87 | the robot starts at the origin, facing up, awaiting paint, with nothing painted |
| Day11.State.ReadNumber | 2019/day11/src/main.rs:91-95 | the result is `Read` of the robot |
| Day11.State.WriteNumber | 2019/day11/src/main.rs:97-122 | the robot after the call is `Write` of the robot before |
| Day11.State.PromptForNumber | 2019/day11/src/main.rs:123-125 | the robot never prompts and always succeeds |
| Day11.PaintingExample | 2019/day11/src/main.rs:97-122 | painting the start black, turning left and painting white paints two panels, one of them white |
| Day13.TileOf | 2019/day13/src/main.rs:114-121 | values 0 to 4 name the five tiles in order |
| Day13.TripleMeaning | 2019/day13/src/main.rs:103-127 | after three writes the machine is ready for the next triple; `(-1, 0, s)` only sets the score display to s; any other triple draws its tile at its cell and changes nothing else |
| Day13.Triples | 2019/day13/src/main.rs:103-127 | after whole triples the write machine is back to expecting an x |
| Day13.TriplesKeepTiles | 2019/day13/src/main.rs:103-127 | a drawn cell is never removed, and a score once shown stays shown |
| Day13.PaddleStepCloses | 2019/day13/src/main.rs:96-100 | moving the paddle by the joystick's value brings it one column closer to the ball, or keeps it level when it already is |
| Day13.ScreenState.New | 2019/day13/src/main.rs:34-40 | the screen starts empty, with no score and no pending values |
| Day13.ScreenState.GetLocationOfTile | 2019/day13/src/main.rs:64-80 | when exactly one cell shows the tile, that cell is returned |
| Day13.ScreenState.ReadNumber | 2019/day13/src/main.rs:92-101 | the joystick follows the ball: -1, 0 or 1 as the ball is left of, level with or right of the paddle |
| Day13.ScreenState.WriteNumber | 2019/day13/src/main.rs:103-127 | the screen after the call is `Write` of the screen before |
| Day13.DrawExample | 2019/day13/src/main.rs:134-142 | a wall, a score of 12 and a block leave one block on the screen and the score shown |
| Day14.ParseQuantities | 2019/day14/src/main.rs:30-31 | a list of quantities parses exactly when every piece parses, and then piece by piece into the same quantities |
| Day14.ParseRecipes | 2019/day14/src/main.rs:23-43 | the recipes are the reactions of the lines inserted in order, a later line for a chemical replacing an earlier one |
| Day14.RecipesKeyed | 2019/day14/src/main.rs:23-43 | once parsing succeeds every line was well formed, each reaction is filed under the chemical it makes, and every line's result has an entry |
| Day14.ParseQuantityText | 2019/day14/src/main.rs:12-21 | "<count> <chemical>" written for any count in `u64` and any plain name reads back as that count and name |
| Day14.ParseLineText | 2019/day14/src/main.rs:25-41 | a reaction written as "<ingredients> => <result>" reads back as the same reaction |
| Day14.ParseRecipesText | 2019/day14/src/main.rs:23-43 | the text of a list of reactions, one per line, parses to the map of that list |
| Day14.KeyedFinds | 2019/day14/src/main.rs:33-40 | the last reaction listed for a chemical is the one filed under it |
| Day14.KeyedKeeps | 2019/day14/src/main.rs:33-40 | an entry that no later reaction replaces survives parsing |
| Day14.Batch | 2019/day14/src/main.rs:62-65 | the amount made is a multiple of the batch size, at least one batch, covers the demand, and is one batch or less than a batch above it |
| Day14.BatchUnique | 2019/day14/src/main.rs:62-65 | only one amount has all the properties of `Batch`, so they define it |
| Day14.BatchAmount | 2019/day14/src/main.rs:62-65 | the batch loop settles on `Batch` of the demand |
| Day14.AddedDemand | 2019/day14/src/main.rs:66-70 | handing out `times` batches raises every chemical's demand by `times` times what one batch uses of it |
| Day14.AddedKeys | 2019/day14/src/main.rs:66-70 | after handing out, the chemicals with a demand are the old ones and the ingredients |
| Day14.AddIngredients | 2019/day14/src/main.rs:66-70 | the ingredient loop computes the handed-out demand |
| Day14.FindMinOre | 2019/day14/src/main.rs:45-77 | the walk over the chemicals computes `MinOre`: one FUEL demanded, each chemical with a demand made in whole batches and replaced by its ingredients, the ORE demand as the answer, and `None` where the source panics |
| Day14.OreEnds | 2019/day14/src/main.rs:57-58 | the walk stops at ORE, and a chemical still to be handed out after ORE is a panic |
| Day14.OreOnlyGrows | 2019/day14/src/main.rs:56-72 | the ORE demand never falls while the other chemicals are worked through |
| Day14.ProcessStep | 2019/day14/src/main.rs:59-71 | one step of the walk replaces a chemical's demand by its ingredients' demand in whole batches |
| Day14.SampleMinOre | 2019/day14/src/main.rs:89-101 | the first sample's reactions need 31 ORE for one FUEL |
| Day15.MoveCommands | 2019/day15/src/main.rs:30-46 | the move commands are 1 to 4, a different one per direction, and `all()` lists every direction |
| Day15.OppositeCancels | 2019/day15/src/main.rs:47-63 | the opposite of the opposite is the direction itself and never equal to it; a move and its opposite come back to the start; each move is one step |
| Day15.FirstUnexplored | 2019/day15/src/main.rs:78-83 | the chosen direction leads to an unexplored cell, and with no choice no direction does |
| Day15.FirstUnexploredIsFirst | 2019/day15/src/main.rs:78-83 | the chosen direction comes before every other direction that leads to an unexplored cell |
| Day15.InitialValid | 2019/day15/src/main.rs:131-147 | a fresh map satisfies the exploration invariant: the droid on open floor at the origin, no move recorded |
| Day15.ReadValid | 2019/day15/src/main.rs:76-90 | a read keeps the invariant and changes neither the cells, the droid's position nor the move count |
| Day15.ReadBackValid | 2019/day15/src/main.rs:84-87 | backing up keeps the invariant: the shortened trail leads to the cell the droid backs into |
| Day15.WriteValid | 2019/day15/src/main.rs:92-127 | a write keeps the invariant: the recorded moves lead through open cells to the droid |
| Day15.ReadFails | 2019/day15/src/main.rs:76-90 | a read ends the exploration exactly when no neighbour is unexplored and no move is left to undo |
| Day15.ExplorationEnds | 2019/day15/src/main.rs:76-90 | the exploration ends only back at the origin |
| Day15.AtRest | 2019/day15/src/main.rs:76-127 | with no move pending the recorded moves lead from the origin to the droid |
| Day15.ExplorationEndsExplored | 2019/day15/src/main.rs:76-90 | when the exploration ends every neighbour of the droid has been explored |
| Day15.WriteCounts | 2019/day15/src/main.rs:118-125 | each write counts one move, the count stays within 100000, and no move is left pending |
| Day15.MapIo.New | 2019/day15/src/main.rs:131-147 | a new map is the initial exploration state |
| Day15.MapIo.PromptForNumber | 2019/day15/src/main.rs:75 | the prompt always succeeds |
| Day15.MapIo.ReadNumber | 2019/day15/src/main.rs:76-90 | `read_number` returns and leaves behind what `Read` gives |
| Day15.MapIo.WriteNumber | 2019/day15/src/main.rs:92-127 | `write_number` succeeds and leaves behind what `Write` gives |
| Day15.MinOption | 2019/day15/src/main.rs:206-223 | the combined answer is one of the two, exists when either does, and is no larger than either |
| Day15.TryFindDistance | 2019/day15/src/main.rs:182-234 | an answer is at least the length of the path walked so far, for an open cell off that path; at the goal it is that length |
| Day15.TryFindSound | 2019/day15/src/main.rs:182-234 | every answer is the length of a real route: a simple path through open cells from the cell to the goal, avoiding the path walked so far |
| Day15.FindDistanceToOxygenSystem | 2019/day15/src/main.rs:236-253 | an answer is the length of a simple route through open cells from the origin to the oxygen system, and 0 when the system is at the origin |
| Day15.RouteFrom | 2019/day15/src/main.rs:248-252 | a search started with an empty path answers with the length of a route |
| Day15.SpreadShrinks | 2019/day15/src/main.rs:261-285 | a round keeps the explored cells, never takes oxygen away, and when it changes anything leaves fewer oxygen-free cells |
| Day15.MinutesStep | 2019/day15/src/main.rs:260-296 | while oxygen-free cells remain, the answer is one more than the answer after one round |
| Day15.MinutesFirst | 2019/day15/src/main.rs:260-296 | the answer is the first round count after which no open cell is without oxygen |
| Day15.MinutesStuck | 2019/day15/src/main.rs:260-296 | with no answer some round changes nothing while oxygen-free cells remain, where the source loops forever |
| Day15.FindMinutesRequiredForOxygenToPropagate | 2019/day15/src/main.rs:255-297 | the loop returns `Minutes` of the explored cells |
| Day15.SpreadRound | 2019/day15/src/main.rs:261-285 | one pass writes the next round's map and reports whether an oxygen-free cell was seen |
| Day15.FillCell | 2019/day15/src/main.rs:274-284 | an oxygen-free cell gets oxygen exactly when one of its four neighbours has some |
| Day15.OxygenNeighbour | 2019/day15/src/main.rs:274-277 | having a neighbour with oxygen is the same as one of the four directions leading to one |
| Day16.ParseInput | 2019/day16/src/main.rs:5-10 | a parsed signal has one number per character |
| Day16.ParseInputDigits | 2019/day16/src/main.rs:5-10 | the signal parses exactly when every character is a digit, and each number is that digit's value |
| Day16.PatternIsRepeatedBase | 2019/day16/src/main.rs:20-36 | the iterator's value at index `k` for a position with length `l` is element `(k / l) % 4` of the base pattern 0, 1, 0, -1 |
| Day16.PatternPeriodic | 2019/day16/src/main.rs:20-36 | the pattern repeats every `4 * l` indexes |
| Day16.PatternIterator.New | 2019/day16/src/main.rs:40-45 | a new iterator starts `offset + 1` elements in, with each base element repeated `position + 1` times |
| Day16.PatternIterator.Next | 2019/day16/src/main.rs:20-36 | `next` gives the base element of the current index and moves on by one, and at the end of a cycle gives 0 and restarts at index 1 |
| Day16.PatternIterator.Take | 2019/day16/src/main.rs:58 | taking `n` values gives the next `n` values of the pattern and leaves the iterator inside the cycle |
| Day16.PatternExamples | 2019/day16/src/main.rs:113-119 | the pattern tests: 1, 0, -1, 0, 1, 0, -1, then 0, 1, 1, 0, 0, -1, -1, then -1, 0, 1, 0, -1 from offset 2 |
| Day16.Digit | 2019/day16/src/main.rs:55-62 | every new element is a digit from 0 to 9 |
| Day16.PhaseIsPuzzleDefinition | 2019/day16/src/main.rs:52-68 | each element of a phase at or past the offset is the last digit of the absolute sum over the rest of the signal of each element times base element `((offset + n) / (i + 1)) % 4`; elements before the offset are 0 |
| Day16.FftShape | 2019/day16/src/main.rs:48-73 | the transform keeps the signal's length, and after at least one phase every element is a digit and those before the offset are 0 |
| Day16.DotBackHalf | 2019/day16/src/main.rs:54-60 | in the back half of the signal the pattern is 0 before the position and 1 from it on, so the sum is a suffix sum |
| Day16.BackHalfDigit | 2019/day16/src/main.rs:54-62 | in the back half a new digit is the last digit of the sum of the elements from its position to the end |
| Day16.PatternDot | 2019/day16/src/main.rs:55-60 | the zip of the digits with the pattern iterator sums the products over the whole rest of the signal |
| Day16.ComputeFft | 2019/day16/src/main.rs:48-73 | `compute_fft` computes `cycles` phases of the transform |
| Day16.Part1 | 2019/day16/src/main.rs:75-79 | part 1 succeeds exactly when every character is a digit, and its answer is the first eight digits (fewer for a shorter signal) after a hundred phases |
| Day16.SampleTransform | 2019/day16/src/main.rs:123-131 | "12345678" becomes 48226158 after one phase and 34040438 after two |
| Day16.FirstPhase | 2019/day16/src/main.rs:126-127 | the first phase of 12345678 is 48226158 |
| Day16.SecondPhase | 2019/day16/src/main.rs:129-130 | the phase of 48226158 is 34040438 |
| Day17.CollectAscii.New | 2019/day17/src/main.rs:13-15 | a new collector holds no lines |
| Day17.CollectAscii.AcceptOutputLine | 2019/day17/src/main.rs:23-26 | every output line is kept, in order, and accepting never fails |
| Day17.MoveVector | 2019/day17/src/main.rs:38-45 | each facing moves one step |
| Day17.Turns | 2019/day17/src/main.rs:47-63 | a left turn undoes a right turn and the other way round, and each turns the move vector a quarter |
| Day17.NonEmpty | 2019/day17/src/main.rs:85 | the rows kept are exactly the non-empty lines, no more of them than lines |
| Day17.DrawnUnique | 2019/day17/src/main.rs:78-105 | the picture determines the map |
| Day17.CreateFromLines | 2019/day17/src/main.rs:78-105 | the map holds exactly the characters other than `.` of the non-empty lines, each at (column, row) as its cell |
| Day17.GetNearbyCells | 2019/day17/src/main.rs:107-131 | at most four nearby cells |
| Day17.NearbyCellAt | 2019/day17/src/main.rs:107-131 | each nearby cell is one of the four neighbours, on the map, with its cell |
| Day17.NearbyCellsMeaning | 2019/day17/src/main.rs:107-131 | the nearby cells are exactly the neighbours on the map, each once with its cell, in the order left, right, up, down |
| Day17.IntersectionMeans | 2019/day17/src/main.rs:137-143 | four scaffold nearby cells means scaffold on all four sides |
| Day17.SumXYRemove | 2019/day17/src/main.rs:136-146 | the sum of x * y does not depend on the order the hash map gives the cells in |
| Day17.Part1AlignmentParameters | 2019/day17/src/main.rs:134-148 | the answer is the sum of x * y over the cells with scaffold on all four sides |
| Day17.GoStraight | 2019/day17/src/main.rs:194-205 | the robot goes straight on as far as the map goes, crossing off every cell it passes |
| Day17.ReplayAppend | 2019/day17/src/main.rs:192-222 | carrying out one more command is performing it after the others |
| Day17.MakeCommandList | 2019/day17/src/main.rs:158-228 | the commands, replayed from the robot, end at the single dead end having visited every scaffold cell |
| Day18.Upper | 2019/day18/src/main.rs:89 | the upper case of a lower-case letter is an upper-case letter |
| Day18.SetCellFacts | 2019/day18/src/main.rs:78-84 | writing a cell changes that cell and no other, and keeps the grid's shape |
| Day18.KeysInSet | 2019/day18/src/main.rs:78-84 | writing a cell changes the key count of the grid by the keys removed and added |
| Day18.GetCellReadsPicture | 2019/day18/src/main.rs:73-76 | on a parsed maze a read succeeds exactly at a place inside the picture's lines, and gives the cell its character stands for |
| Day18.ParseRow | 2019/day18/src/main.rs:39-62 | the inner loop computes the scan of one line |
| Day18.Parse | 2019/day18/src/main.rs:24-71 | `Maze::parse` computes `ParseMaze`: `None` where the source panics |
| Day18.ParsedSound | 2019/day18/src/main.rs:38-63 | the scan of a parsed maze is sound, row for row as long as its lines |
| Day18.ParseValid | 2019/day18/src/main.rs:24-71 | a parsed maze satisfies what the search relies on: the start on open floor, each door at a door cell, the key count equal to the key cells, and keys lower-case |
| Day18.ParseCells | 2019/day18/src/main.rs:24-71 | the parsed maze is what its picture shows: each cell stands for its character, the start is the one `@`, and the key count counts the keys |
| Day18.ParseDoors | 2019/day18/src/main.rs:48-52 | each door letter of the picture is recorded at the place it stands, and nothing else is |
| Day18.ParseSucceeds | 2019/day18/src/main.rs:24-71 | parsing succeeds exactly on a picture that is rectangular, uses known characters, repeats no door letter and has exactly one start |
| Day18.StepFails | 2019/day18/src/main.rs:41-58 | the scan of the next character fails exactly on an unknown character, a repeated door letter or a second start |
| Day18.SimpleStart | 2019/day18/src/main.rs:160-170 | `test_parse`: the small maze's start is at (5, 1) |
| Day18.CloneMeaning | 2019/day18/src/main.rs:86-106 | the copy starts at the key, opens the key's cell and its door's, forgets the door, has one key fewer, and changes nothing else |
| Day18.CloneValid | 2019/day18/src/main.rs:86-106 | taking a key from a valid maze meets the copy's demands and gives a valid maze |
| Day18.TourBound | 2019/day18/src/main.rs:108-143 | a route collecting every key has one leg per key and at least one step per leg |
| Day18.QueuedPop | 2019/day18/src/main.rs:120 | the front of the queue stands for a walk of its distance to its place |
| Day18.QueuedPush | 2019/day18/src/main.rs:128-131 | a walk one step past an open cell joins the queue as a walk |
| Day18.TourCons | 2019/day18/src/main.rs:132-136 | a walk to a key followed by a route of the maze with that key taken is a route of the maze |
| Day18.SeenGrows | 2019/day18/src/main.rs:121-123 | marking a new cell seen leaves fewer unseen cells, so the search ends |
| Day18.EnqueueNeighbours | 2019/day18/src/main.rs:128-131 | the four neighbours of an open cell join the queue, one step further, each as a walk |
| Day18.ShortestPathFrom | 2019/day18/src/main.rs:108-143 | with no key left the answer is the moves so far; any answer is the moves so far plus the steps of a route collecting every key, at least one step per key |
| Day18.FindShortestPath | 2019/day18/src/main.rs:146-148 | an answer is the length of a route collecting every key, at least the number of keys |
| Day23.FirstReadIsAddress | 2019/day23/src/main.rs:80-89 | a new computer's first read is its own address, with the inbox untouched |
| Day23.EmptyPoll | 2019/day23/src/main.rs:49-58 | with nothing buffered or queued a read gives -1, or the exit once the switch is gone, and changes nothing |
| Day23.ReadPacket | 2019/day23/src/main.rs:43-59 | two reads deliver a packet addressed to this computer as `x` then `y`, and take it off the inbox |
| Day23.WritePacket | 2019/day23/src/main.rs:62-77 | three writes send one packet of address, `x` and `y`, or fail once the switch is gone |
| Day23.RouteAllDelivers | 2019/day23/src/main.rs:145-162 | routing a run of packets appends to each inbox exactly the packets addressed to it, in order; the NAT slot holds the last packet addressed to 255, or its old value when there is none |
| Day23.DeliveredInOrder | 2019/day23/src/main.rs:43-77 | a packet routed by the switch to a computer with an empty inbox is read by that computer as `x` then `y` |
| Day23.ComputerIo.New | 2019/day23/src/main.rs:80-89 | the device starts with its address buffered and nothing outgoing |
| Day23.ComputerIo.PromptForNumber | 2019/day23/src/main.rs:39-41 | the prompt always succeeds |
| Day23.ComputerIo.ReadNumber | 2019/day23/src/main.rs:43-60 | `read_number` returns and leaves behind what `Read` gives |
| Day23.ComputerIo.WriteNumber | 2019/day23/src/main.rs:62-78 | `write_number` returns and leaves behind what `Write` gives |

`LegacyDay7` has no permutation code of its own: `permutation` in
`day7/src/main.rs:8-34` is the same algorithm as in `2019/day7/src/main.rs:10-36`,
and the first-version chain uses `Day7.Permutations` and the lemmas proved about it.

## Left out

- Console and file I/O: reading and writing numbers on the terminal, printing prompts,
  `execute`, `execute_no_prompt`, `execute_with_std_io`, `include_str!` inputs,
  and all screen and map rendering (`draw_screen`, `print_map`, `println!`).
  Reads are a scripted input sequence and writes an output log instead.
- Channels and threads: the channel-backed ports, `execute_with_channel`, and the
  day 7 feedback loop (`2019/day7/src/main.rs:68-147`) with its test. Their point is
  concurrency and timing.
- Day 23 networking: thread spawning, timeouts and the NAT idle heuristic
  (`2019/day23/src/main.rs:93-174`). Only the per-computer device and the routing rule
  are modelled, with inboxes and outboxes as sequences.
- `2019/day19`, `2019/day12`, `day2`, `2019/day5` and `2019/day9` are not part of this
  model. They are thin drivers around the machine, a stub that does not compile, or
  rely on an unseen program as an oracle.
- `utils::Direction` is not among the sources. Day 18 uses the four unit moves in a
  fixed order instead; the order does not change the search's answer.
- Intcode.Run: the machine need not halt, so every run takes a `fuel` bound, and
  `Running` means the fuel ran out. The same holds for the first-version machines.
- Intcode.CpuState.ExecuteInner: `i64` overflow of additions, multiplications and the
  relative base is not modelled; integers are unbounded. Only the range checks of
  parsing are written out.
- Day16.ComputeFft: the `i32` sums are unbounded here, so an overflow in the source is
  not modelled.
- Day16 `part_2` is left out. It is the same transform on a signal repeated ten
  thousand times, and the source comments it out of its tests.
- The ASCII adapter's text encodings are not modelled. Input lines are given as
  sequences of UTF-16 code units and output lines kept as bytes; `encode_utf16` and
  `String::from_utf8` are left to the caller.
- Day3 wire tests (`2019/day3/src/main.rs:188-234`, answers 6/30, 159/610 and 135/410)
  are not proved; the wire walk, the two searches and their meaning are.
- Day7.FindMaxThruster: the tests' maxima 43210, 54321 and 65210
  (`2019/day7/src/main.rs:204-217`) are not proved over all 120 orderings. Only the
  first program's chain for the phases 4,3,2,1,0 is proved to give 43210. The same
  holds for LegacyDay7.FindMaxThruster.
- Day10 test maps 1 to 5 (`2019/day10/src/main.rs:188-306`) are not proved; the
  small parse example is.
- Day13: the part-2 score loop in `main` and the screen drawing are left out, as
  console I/O.
- Day14.FindMinOre: the topological order of the chemicals is a parameter, as the
  `topological_sort` crate is not part of this model. Only the first sample (31 ORE)
  is proved; the tests giving 165, 13312, 180697 and 2210736 are not.
- Day15.TryFindDistance: proved sound only. Every answer is the length of a real simple
  route, but that it is the shortest such route is not proved.
- Day15.FindDistanceToOxygenSystem: the oxygen system's cell is a parameter (the source
  takes the first one its hash map yields). The answer is proved to be the length of a
  route, not the shortest one.
- Day15.FindMinutesRequiredForOxygenToPropagate: where the source would loop forever
  (a round that changes nothing while oxygen-free cells remain), the model stops and
  returns `None`.
- Day17.MakeCommandList: the `None` case (the source's panics) is not characterised,
  and the contract states where the commands lead, not which turn the robot prefers.
- Day17: the part-1 test (76, `2019/day17/src/main.rs:249-264`) is not proved, and
  `CollectAscii` input, which always panics, is left out.
- Day18.ShortestPathFrom: proved sound only. Every answer is the length of a route
  that collects every key, but that it is the shortest is not proved.
- Day18.FindShortestPath: the same; the path tests 8, 86, 132 and 81
  (`2019/day18/src/main.rs:172-235`) are not proved.
- IntcodeAscii.AsciiWrite: does not model the panic of `String::from_utf8(..).unwrap()`
  (`2019/intcode/src/lib.rs:544`) on collected output bytes that are not valid UTF-8; a
  completed line is handed over as its bytes whatever they are.
- LegacyIntcode: of the first interpreter's tests (`intcode/src/lib.rs:382-480`) only
  the equal-to-8 program with input 8 is proved for it. The less-than, immediate-mode,
  jump and `AROUND_EIGHT` programs are proved, for every input, on the 2019 machine
  only.
- Day14.FindMinOre: its `PositiveBatches` precondition excludes a reaction that makes
  0 units (`=> 0 X`), which parses. For such a reaction the batch loop of
  `2019/day14/src/main.rs:62-64` never ends once there is a demand, and the division
  at line 66 divides by zero; the model states neither.
- Day6.OrbitMap.CountOne: where a cycle of parents makes the source walk forever, the
  model returns `None` after as many links as there are objects.
