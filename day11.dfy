/**
 * Day 11 of 2019: the hull-painting robot, the I/O device an Intcode program
 * drives. A read reports the colour of the panel under the robot; the
 * program's outputs come in pairs, a colour to paint and then a turn, after
 * which the robot moves one panel forward. The answer is the number of panels
 * painted at least once, black or white.
 */
module Day11 {
  import opened Common
  import Intcode

  datatype Direction = Up | Right | Down | Left

  function TurnLeft(d: Direction): Direction
  {
    match d
    case Up => Left
    case Right => Up
    case Down => Right
    case Left => Down
  }

  function TurnRight(d: Direction): Direction
  {
    match d
    case Up => Right
    case Right => Down
    case Down => Left
    case Left => Up
  }

  /** The two turns undo each other. */
  lemma TurnsInverse(d: Direction)
    ensures TurnLeft(TurnRight(d)) == d && TurnRight(TurnLeft(d)) == d
  {
  }

  /** Four turns the same way come back to the start, and no fewer do. */
  lemma TurnsCycle(d: Direction)
    ensures TurnRight(TurnRight(TurnRight(TurnRight(d)))) == d
    ensures TurnRight(d) != d && TurnRight(TurnRight(d)) != d && TurnRight(TurnRight(TurnRight(d))) != d
  {
  }

  /** `move_in_direction`: y grows downwards. */
  function Move(p: Vec2, d: Direction): (q: Vec2)
    ensures Abs(q.x - p.x) + Abs(q.y - p.y) == 1
    ensures d == Up ==> q.y < p.y
    ensures d == Down ==> q.y > p.y
    ensures d == Right ==> q.x > p.x
    ensures d == Left ==> q.x < p.x
  {
    match d
    case Up => Vec2(p.x, p.y - 1)
    case Down => Vec2(p.x, p.y + 1)
    case Right => Vec2(p.x + 1, p.y)
    case Left => Vec2(p.x - 1, p.y)
  }

  /** Turning round and moving again returns to the panel left. */
  lemma MoveBack(p: Vec2, d: Direction)
    ensures Move(Move(p, d), TurnRight(TurnRight(d))) == p
  {
  }

  datatype CommandState = AwaitingPaintCommand | AwaitingTurnCommand

  /** The robot: where it is, what it expects next, where it faces, and the panels painted (true is white). */
  datatype Robot = Robot(position: Vec2, commandState: CommandState, direction: Direction, paintedWhite: map<Vec2, bool>)

  const Initial := Robot(Vec2(0, 0), AwaitingPaintCommand, Up, map[])

  /** `read_number`: 1 on a panel painted white, 0 on a black or unpainted one. */
  function Read(r: Robot): (c: int)
    ensures c == 0 || c == 1
    ensures c == 1 <==> r.position in r.paintedWhite && r.paintedWhite[r.position]
  {
    if r.position in r.paintedWhite && r.paintedWhite[r.position] then 1 else 0
  }

  /** A value the robot accepts: anything else panics. */
  predicate Command(num: int)
  {
    num == 0 || num == 1
  }

  /** `write_number`: paint (0 black, 1 white) without moving, or turn (0 left, 1 right) and move. */
  function Write(r: Robot, num: int): Robot
    requires Command(num)
  {
    match r.commandState
    case AwaitingPaintCommand =>
      r.(paintedWhite := r.paintedWhite[r.position := num == 1], commandState := AwaitingTurnCommand)
    case AwaitingTurnCommand =>
      var d := if num == 0 then TurnLeft(r.direction) else TurnRight(r.direction);
      r.(direction := d, position := Move(r.position, d), commandState := AwaitingPaintCommand)
  }

  /** The number of panels painted at least once. */
  function PaintedCount(r: Robot): nat
  {
    |r.paintedWhite.Keys|
  }

  /** A paint write records the colour under the robot and nothing else; a turn write paints nothing. */
  lemma WriteMeaning(r: Robot, num: int)
    requires Command(num)
    ensures var r' := Write(r, num);
      r'.commandState != r.commandState
      && (r.commandState == AwaitingPaintCommand ==>
            r'.position == r.position && r'.direction == r.direction
            && r'.paintedWhite.Keys == r.paintedWhite.Keys + {r.position}
            && Read(r') == num
            && forall p :: p in r.paintedWhite && p != r.position ==> r'.paintedWhite[p] == r.paintedWhite[p])
      && (r.commandState == AwaitingTurnCommand ==>
            r'.paintedWhite == r.paintedWhite
            && r'.direction == (if num == 0 then TurnLeft(r.direction) else TurnRight(r.direction))
            && r'.position == Move(r.position, r'.direction))
  {
  }

  /** The robot after a sequence of writes. */
  function Writes(r: Robot, nums: seq<int>): Robot
    requires forall i :: 0 <= i < |nums| ==> Command(nums[i])
    decreases |nums|
  {
    if |nums| == 0 then r else Writes(Write(r, nums[0]), nums[1..])
  }

  /** Writes alternate between painting and turning: after an even number the robot awaits the same command. */
  lemma {:induction false} WritesAlternate(r: Robot, nums: seq<int>)
    requires forall i :: 0 <= i < |nums| ==> Command(nums[i])
    ensures (Writes(r, nums).commandState == r.commandState) <==> |nums| % 2 == 0
    decreases |nums|
  {
    if |nums| > 0 {
      WriteMeaning(r, nums[0]);
      WritesAlternate(Write(r, nums[0]), nums[1..]);
    }
  }

  /**
   * Panels stay painted, and at most one new panel is painted per paint
   * command: of `n` writes from a robot awaiting paint, `(n + 1) / 2` are paints.
   */
  lemma {:induction false} WritesPaint(r: Robot, nums: seq<int>)
    requires forall i :: 0 <= i < |nums| ==> Command(nums[i])
    ensures r.paintedWhite.Keys <= Writes(r, nums).paintedWhite.Keys
    ensures r.commandState == AwaitingPaintCommand ==>
      2 * PaintedCount(Writes(r, nums)) <= 2 * PaintedCount(r) + |nums| + 1
    ensures r.commandState == AwaitingTurnCommand ==>
      2 * PaintedCount(Writes(r, nums)) <= 2 * PaintedCount(r) + |nums|
    decreases |nums|
  {
    if |nums| > 0 {
      var r1 := Write(r, nums[0]);
      WriteMeaning(r, nums[0]);
      WritesPaint(r1, nums[1..]);
      assert Writes(r, nums) == Writes(r1, nums[1..]);
      if r.commandState == AwaitingPaintCommand {
        assert PaintedCount(r1) <= PaintedCount(r) + 1 by {
          assert r1.paintedWhite.Keys == r.paintedWhite.Keys + {r.position};
        }
      }
    }
  }

  /** `State`, the device the Intcode program writes to. */
  class State {
    var position: Vec2
    var commandState: CommandState
    var direction: Direction
    var paintedWhite: map<Vec2, bool>

    function Snapshot(): Robot
      reads this
    {
      Robot(position, commandState, direction, paintedWhite)
    }

    /** `new`: at the origin, facing up, awaiting paint, nothing painted. */
    constructor New()
      ensures Snapshot() == Initial
    {
      position := Vec2(0, 0);
      commandState := AwaitingPaintCommand;
      direction := Up;
      paintedWhite := map[];
    }

    method ReadNumber() returns (r: Result<int, Intcode.Error>)
      ensures r == Ok(Read(Snapshot()))
    {
      var color := if position in paintedWhite then paintedWhite[position] else false;
      r := Ok(if color then 1 else 0);
    }

    method WriteNumber(num: int) returns (r: Result<(), Intcode.Error>)
      requires Command(num)
      modifies this
      ensures r == Ok(())
      ensures Snapshot() == Write(old(Snapshot()), num)
    {
      match commandState {
        case AwaitingPaintCommand =>
          paintedWhite := paintedWhite[position := num == 1];
          commandState := AwaitingTurnCommand;
        case AwaitingTurnCommand =>
          if num == 0 {
            direction := TurnLeft(direction);
          } else {
            direction := TurnRight(direction);
          }
          position := Move(position, direction);
          commandState := AwaitingPaintCommand;
      }
      r := Ok(());
    }

    method PromptForNumber() returns (r: Result<(), Intcode.Error>)
      ensures r == Ok(())
    {
      r := Ok(());
    }
  }

  /** First paint the start black, turn left, paint white: two panels are painted, one of them black. */
  lemma PaintingExample()
    ensures var r := Writes(Initial, [0, 0, 1]);
      PaintedCount(r) == 2 && r.position == Vec2(-1, 0) && r.direction == Left
      && r.paintedWhite == map[Vec2(0, 0) := false, Vec2(-1, 0) := true]
      && r.commandState == AwaitingTurnCommand
  {
    var r1 := Write(Initial, 0);
    var r2 := Write(r1, 0);
    var r3 := Write(r2, 1);
    assert Writes(r2, [1]) == r3 by {
      assert [1][1..] == [];
    }
    assert Writes(r1, [0, 1]) == r3 by {
      assert [0, 1][1..] == [1];
    }
    assert Writes(Initial, [0, 0, 1]) == r3 by {
      assert [0, 0, 1][1..] == [0, 1];
    }
    assert r3.paintedWhite.Keys == {Vec2(0, 0), Vec2(-1, 0)};
  }
}
