/**
 * The ASCII adapter of the 2019 Intcode crate (`AsciiCpuState`): it turns the
 * line-oriented conversation of a caller into the number stream the CPU reads
 * and writes. Input lines are handed to the program one UTF-16 code unit per
 * read, followed by a newline (10); output numbers are collected as bytes until
 * the program writes 10, and then the collected bytes form one output line.
 *
 * The caller's side (`AsciiCpuIo`) is scripted like the CPU's port: the lines
 * it will give, the error it returns once they run out, the lines it accepted,
 * and an optional error it returns whenever a line is offered.
 */
module IntcodeAscii {
  import opened Common
  import opened Intcode

  const NEWLINE: int := 10

  /** The caller of the adapter: lines are sequences of UTF-16 code units (input) or bytes (output). */
  datatype LineIo = LineIo(lines: seq<seq<int>>, endOfLines: Error, accepted: seq<seq<int>>, acceptError: Option<Error>)

  /** `get_input_line_for_program`: the next scripted line, or the scripted error. */
  function NextLine(io: LineIo): (Result<seq<int>, Error>, LineIo)
  {
    if |io.lines| == 0 then (Err(io.endOfLines), io)
    else (Ok(io.lines[0]), io.(lines := io.lines[1..]))
  }

  /** `accept_output_line_from_program`: the line is recorded, then the scripted error (if any) is returned. */
  function AcceptLine(io: LineIo, line: seq<int>): (Result<(), Error>, LineIo)
  {
    var io' := io.(accepted := io.accepted + [line]);
    match io.acceptError
    case None => (Ok(()), io')
    case Some(e) => (Err(e), io')
  }

  /**
   * The adapter's state: the pending input units as a stack whose top is the
   * LAST element (the source pushes a line in reverse so that it can pop it),
   * the output bytes collected so far, and the caller.
   */
  datatype AsciiState = AsciiState(inputUnits: seq<int>, outputBytes: seq<int>, io: LineIo)

  function Reversed(s: seq<int>): (r: seq<int>)
    ensures |r| == |s|
    ensures forall i :: 0 <= i < |s| ==> r[i] == s[|s| - 1 - i]
  {
    if |s| == 0 then [] else Reversed(s[1..]) + [s[0]]
  }

  /** The stack a fresh line becomes: a newline at the bottom, the line's first unit on top. */
  function LineStack(line: seq<int>): seq<int>
  {
    [NEWLINE] + Reversed(line)
  }

  /**
   * `read_number`. An empty stack is refilled first: the newline is pushed,
   * then a line is fetched; when the fetch fails the error is returned and the
   * newline stays behind for the next read. Then the top unit is popped.
   */
  function AsciiRead(s: AsciiState): (r: (Result<int, Error>, AsciiState))
    ensures |s.inputUnits| > 0 ==> r.0 == Ok(s.inputUnits[|s.inputUnits| - 1])
    ensures |s.inputUnits| > 0 ==> r.1 == s.(inputUnits := s.inputUnits[..|s.inputUnits| - 1])
    ensures |s.inputUnits| == 0 && |s.io.lines| == 0 ==>
      r == (Err(s.io.endOfLines), s.(inputUnits := [NEWLINE]))
    ensures r.1.outputBytes == s.outputBytes && r.1.io.accepted == s.io.accepted
  {
    if |s.inputUnits| > 0 then
      Pop(s)
    else
      var (line, io') := NextLine(s.io);
      match line
      case Err(e) => (Err(e), s.(inputUnits := [NEWLINE], io := io'))
      case Ok(l) => Pop(s.(inputUnits := LineStack(l), io := io'))
  }

  function Pop(s: AsciiState): (Result<int, Error>, AsciiState)
    requires |s.inputUnits| > 0
  {
    (Ok(s.inputUnits[|s.inputUnits| - 1]), s.(inputUnits := s.inputUnits[..|s.inputUnits| - 1]))
  }

  /** Rust's `num as u8`: the low eight bits of the two's-complement value. */
  function AsByte(num: int): (b: int)
    ensures 0 <= b < 256
    ensures 0 <= num < 256 ==> b == num
  {
    num % 256
  }

  /**
   * `write_number`. A newline hands the collected bytes to the caller as one
   * line and clears the buffer, even when the caller then fails; any other
   * number is kept as its low byte.
   */
  function AsciiWrite(s: AsciiState, num: int): (r: (Result<(), Error>, AsciiState))
    ensures num != NEWLINE ==> r == (Ok(()), s.(outputBytes := s.outputBytes + [AsByte(num)]))
    ensures num == NEWLINE ==> r.1.outputBytes == [] && r.1.io.accepted == s.io.accepted + [s.outputBytes]
    ensures num == NEWLINE ==> (r.0.Err? <==> s.io.acceptError.Some?)
    ensures r.1.inputUnits == s.inputUnits && r.1.io.lines == s.io.lines
  {
    if num == NEWLINE then
      var (res, io') := AcceptLine(s.io, s.outputBytes);
      (res, s.(outputBytes := [], io := io'))
    else
      (Ok(()), s.(outputBytes := s.outputBytes + [AsByte(num)]))
  }

  // ---------------------------------------------------------------------
  // Whole lines
  // ---------------------------------------------------------------------

  /** `n` reads in a row; the results in order, stopping at the first error. */
  function ReadMany(s: AsciiState, n: nat): (Result<seq<int>, Error>, AsciiState)
    decreases n
  {
    if n == 0 then (Ok([]), s)
    else
      var first := AsciiRead(s);
      if first.0.Err? then (Err(first.0.error), first.1)
      else
        var rest := ReadMany(first.1, n - 1);
        if rest.0.Err? then rest
        else (Ok([first.0.value] + rest.0.value), rest.1)
  }

  /** Reading a stack `[10] + Reversed(suffix)` yields the suffix in order, then the newline. */
  lemma {:induction false} ReadStack(s: AsciiState, suffix: seq<int>)
    requires s.inputUnits == LineStack(suffix)
    ensures ReadMany(s, |suffix| + 1) == (Ok(suffix + [NEWLINE]), s.(inputUnits := []))
    decreases |suffix|
  {
    if |suffix| == 0 {
      assert LineStack(suffix) == [NEWLINE];
      var empty := s.(inputUnits := []);
      assert AsciiRead(s) == (Ok(NEWLINE), empty);
      assert ReadMany(empty, 0) == (Ok([]), empty);
      assert suffix + [NEWLINE] == [NEWLINE] + [];
    } else {
      var stack := LineStack(suffix);
      assert stack[|stack| - 1] == suffix[0];
      var s' := s.(inputUnits := stack[..|stack| - 1]);
      assert AsciiRead(s) == (Ok(suffix[0]), s');
      assert Reversed(suffix)[..|suffix| - 1] == Reversed(suffix[1..]);
      assert stack[..|stack| - 1] == LineStack(suffix[1..]);
      ReadStack(s', suffix[1..]);
      assert [suffix[0]] + (suffix[1..] + [NEWLINE]) == suffix + [NEWLINE];
    }
  }

  /**
   * With nothing pending, a line of the caller is read back unit by unit and
   * then a newline, after which the adapter is empty again and the caller has
   * moved on to its next line.
   */
  lemma ReadLine(s: AsciiState)
    requires s.inputUnits == [] && |s.io.lines| > 0
    ensures ReadMany(s, |s.io.lines[0]| + 1) ==
      (Ok(s.io.lines[0] + [NEWLINE]), s.(io := s.io.(lines := s.io.lines[1..])))
  {
    var line := s.io.lines[0];
    var s1 := s.(inputUnits := LineStack(line), io := s.io.(lines := s.io.lines[1..]));
    assert AsciiRead(s) == AsciiRead(s1);
    assert ReadMany(s, |line| + 1) == ReadMany(s1, |line| + 1);
    ReadStack(s1, line);
  }

  /**
   * A failed fetch still leaves the newline it pushed first: the read after the
   * error returns 10 without asking the caller again.
   */
  lemma FailedFetchLeavesNewline(s: AsciiState)
    requires s.inputUnits == [] && |s.io.lines| == 0
    ensures AsciiRead(s).0 == Err(s.io.endOfLines)
    ensures AsciiRead(AsciiRead(s).1) == (Ok(NEWLINE), s)
  {
    var s1 := s.(inputUnits := [NEWLINE]);
    assert AsciiRead(s).1 == s1;
    assert s1.(inputUnits := s1.inputUnits[..0]) == s;
  }

  /** Writes of `nums` in order, stopping at the first error. */
  function WriteMany(s: AsciiState, nums: seq<int>): (Result<(), Error>, AsciiState)
    decreases |nums|
  {
    if |nums| == 0 then (Ok(()), s)
    else
      var first := AsciiWrite(s, nums[0]);
      if first.0.Err? then first
      else WriteMany(first.1, nums[1..])
  }

  /** The low bytes of the numbers, in order. */
  function Bytes(nums: seq<int>): (r: seq<int>)
    ensures |r| == |nums|
  {
    if |nums| == 0 then [] else [AsByte(nums[0])] + Bytes(nums[1..])
  }

  /** Numbers that already are bytes are kept as they are. */
  lemma {:induction false} BytesOfBytes(nums: seq<int>)
    requires forall i :: 0 <= i < |nums| ==> 0 <= nums[i] < 256
    ensures Bytes(nums) == nums
    decreases |nums|
  {
    if |nums| > 0 {
      BytesOfBytes(nums[1..]);
      assert [nums[0]] + nums[1..] == nums;
    }
  }

  /** Numbers without a newline are only collected, as bytes. */
  lemma {:induction false} WriteCollects(s: AsciiState, nums: seq<int>)
    requires forall i :: 0 <= i < |nums| ==> nums[i] != NEWLINE
    ensures WriteMany(s, nums) == (Ok(()), s.(outputBytes := s.outputBytes + Bytes(nums)))
    decreases |nums|
  {
    if |nums| > 0 {
      var s' := s.(outputBytes := s.outputBytes + [AsByte(nums[0])]);
      assert AsciiWrite(s, nums[0]) == (Ok(()), s');
      assert WriteMany(s, nums) == WriteMany(s', nums[1..]);
      WriteCollects(s', nums[1..]);
      assert Bytes(nums) == [AsByte(nums[0])] + Bytes(nums[1..]);
      var t := s.outputBytes + Bytes(nums);
      assert t == s'.outputBytes + Bytes(nums[1..]);
      assert s'.(outputBytes := t) == s.(outputBytes := t);
    } else {
      assert s.outputBytes + Bytes(nums) == s.outputBytes;
    }
  }

  /**
   * Numbers ended by a newline reach the caller as one line: the bytes
   * collected before them and then their own low bytes; the buffer is empty
   * again afterwards.
   */
  lemma {:induction false} WriteLine(s: AsciiState, nums: seq<int>)
    requires s.io.acceptError.None?
    requires forall i :: 0 <= i < |nums| ==> nums[i] != NEWLINE
    ensures WriteMany(s, nums + [NEWLINE]) ==
      (Ok(()), s.(outputBytes := [], io := s.io.(accepted := s.io.accepted + [s.outputBytes + Bytes(nums)])))
    decreases |nums|
  {
    if |nums| == 0 {
      assert nums + [NEWLINE] == [NEWLINE];
      assert s.outputBytes + Bytes(nums) == s.outputBytes;
      var s' := s.(outputBytes := [], io := s.io.(accepted := s.io.accepted + [s.outputBytes]));
      assert AsciiWrite(s, NEWLINE) == (Ok(()), s');
      assert WriteMany(s', []) == (Ok(()), s');
    } else {
      var s' := s.(outputBytes := s.outputBytes + [AsByte(nums[0])]);
      assert (nums + [NEWLINE])[1..] == nums[1..] + [NEWLINE];
      WriteLine(s', nums[1..]);
      var t := s.outputBytes + Bytes(nums);
      assert t == s'.outputBytes + Bytes(nums[1..]);
      assert s'.(outputBytes := t) == s.(outputBytes := t);
    }
  }

  // ---------------------------------------------------------------------
  // The adapter as an object
  // ---------------------------------------------------------------------

  class AsciiCpuState {
    var inputUnits: seq<int>
    var outputBytes: seq<int>
    var io: LineIo

    function State(): AsciiState
      reads this
    {
      AsciiState(inputUnits, outputBytes, io)
    }

    /** `create`: both buffers empty. */
    constructor Create(io: LineIo)
      ensures State() == AsciiState([], [], io)
    {
      inputUnits := [];
      outputBytes := [];
      this.io := io;
    }

    /** The adapter has no prompt: it always succeeds and changes nothing. */
    method PromptForNumber() returns (r: Result<(), Error>)
      ensures r == Ok(())
    {
      r := Ok(());
    }

    method ReadNumber() returns (r: Result<int, Error>)
      modifies this
      ensures (r, State()) == AsciiRead(old(State()))
    {
      if |inputUnits| == 0 {
        inputUnits := [NEWLINE];
        var fetched := NextLine(io);
        var line := fetched.0;
        io := fetched.1;
        if line.Err? {
          return Err(line.error);
        }
        var l := line.value;
        var i := |l|;
        while i > 0
          invariant 0 <= i <= |l|
          invariant inputUnits == [NEWLINE] + Reversed(l[i..])
          invariant io == fetched.1 && outputBytes == old(outputBytes)
        {
          i := i - 1;
          assert l[i..] == [l[i]] + l[i + 1..];
          inputUnits := inputUnits + [l[i]];
        }
        assert l[0..] == l;
        assert State() == old(State()).(inputUnits := LineStack(l), io := fetched.1);
      }
      r := Ok(inputUnits[|inputUnits| - 1]);
      inputUnits := inputUnits[..|inputUnits| - 1];
    }

    method WriteNumber(num: int) returns (r: Result<(), Error>)
      modifies this
      ensures (r, State()) == AsciiWrite(old(State()), num)
    {
      if num == NEWLINE {
        var line := outputBytes;
        outputBytes := [];
        var accepted := AcceptLine(io, line);
        r := accepted.0;
        io := accepted.1;
      } else {
        outputBytes := outputBytes + [AsByte(num)];
        r := Ok(());
      }
    }
  }
}
