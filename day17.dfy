/**
 * Day 17 of 2019: set and forget. The ASCII camera program prints the
 * scaffolding as lines of text; the lines are collected, turned into a map
 * of the cells that are not open space, and then used twice: the sum of the
 * alignment parameters (x times y) of the scaffold intersections, and the
 * list of turns and straight moves that walks the vacuum robot from its
 * start over every cell to the single dead end.
 */
module Day17 {
  import opened Common
  import Intcode

  // ---------------------------------------------------------------------
  // Collecting the camera's lines
  // ---------------------------------------------------------------------

  /** `CollectAscii`: the line-oriented device behind the ASCII adapter. */
  class CollectAscii {
    var lines: seq<string>

    constructor New()
      ensures lines == []
    {
      lines := [];
    }

    /** `accept_output_line_from_program`: every line is kept, in order. */
    method AcceptOutputLine(output: string) returns (r: Result<(), Intcode.Error>)
      modifies this
      ensures r == Ok(())
      ensures lines == old(lines) + [output]
    {
      lines := lines + [output];
      r := Ok(());
    }
  }

  // ---------------------------------------------------------------------
  // The robot's directions (y grows downwards)
  // ---------------------------------------------------------------------

  datatype RobotDirection = Up | Down | Left | Right

  function MoveVector(d: RobotDirection): (v: Vec2)
    ensures Abs(v.x) + Abs(v.y) == 1
  {
    match d
    case Up => Vec2(0, -1)
    case Down => Vec2(0, 1)
    case Left => Vec2(-1, 0)
    case Right => Vec2(1, 0)
  }

  function TurnRight(d: RobotDirection): RobotDirection
  {
    match d
    case Up => Right
    case Right => Down
    case Down => Left
    case Left => Up
  }

  function TurnLeft(d: RobotDirection): RobotDirection
  {
    match d
    case Up => Left
    case Left => Down
    case Down => Right
    case Right => Up
  }

  /**
   * The turns undo each other, and each is a quarter rotation of the move
   * vector: clockwise on screen for a right turn.
   */
  lemma Turns(d: RobotDirection)
    ensures TurnLeft(TurnRight(d)) == d && TurnRight(TurnLeft(d)) == d
    ensures MoveVector(TurnRight(d)) == Vec2(-MoveVector(d).y, MoveVector(d).x)
    ensures MoveVector(TurnLeft(d)) == Vec2(MoveVector(d).y, -MoveVector(d).x)
  {
  }

  // ---------------------------------------------------------------------
  // The map
  // ---------------------------------------------------------------------

  datatype Cell = Scaffold | RobotOnScaffold(dir: RobotDirection) | LostRobot

  /** The characters the camera draws. */
  predicate MapChar(c: char)
  {
    c == '.' || c == '#' || c == '^' || c == 'V' || c == '<' || c == '>' || c == 'X'
  }

  function CellOf(c: char): Cell
    requires MapChar(c) && c != '.'
  {
    match c
    case '#' => Scaffold
    case '^' => RobotOnScaffold(Up)
    case 'V' => RobotOnScaffold(Down)
    case '<' => RobotOnScaffold(Left)
    case '>' => RobotOnScaffold(Right)
    case 'X' => LostRobot
  }

  /** The lines `create_from_lines` keeps: the non-empty ones, in order. */
  function NonEmpty(lines: seq<string>): (rows: seq<string>)
    ensures |rows| <= |lines|
    ensures forall l :: l in rows <==> l in lines && l != ""
  {
    if |lines| == 0 then []
    else (if lines[0] == "" then [] else [lines[0]]) + NonEmpty(lines[1..])
  }

  /**
   * What `create_from_lines` accepts without panicking: some line is kept,
   * all kept lines have the same length, and every character is one the
   * camera draws.
   */
  predicate Drawable(lines: seq<string>)
  {
    var rows := NonEmpty(lines);
    && |rows| > 0
    && (forall y :: 0 <= y < |rows| ==> |rows[y]| == |rows[0]|)
    && (forall y, x :: 0 <= y < |rows| && 0 <= x < |rows[y]| ==> MapChar(rows[y][x]))
  }

  predicate InGrid(rows: seq<string>, p: Vec2)
  {
    0 <= p.y < |rows| && 0 <= p.x < |rows[p.y]|
  }

  /**
   * `cells` holds exactly the characters other than `.` of `rows` that come
   * before column `x` of row `y` in reading order, each as its cell.
   */
  predicate DrawnBefore(rows: seq<string>, cells: map<Vec2, Cell>, y: int, x: int)
  {
    && (forall p :: p in cells ==>
          && InGrid(rows, p) && (p.y < y || (p.y == y && p.x < x))
          && MapChar(rows[p.y][p.x]) && rows[p.y][p.x] != '.'
          && cells[p] == CellOf(rows[p.y][p.x]))
    && (forall q, r :: 0 <= q < |rows| && 0 <= r < |rows[q]| && (q < y || (q == y && r < x)) && rows[q][r] != '.'
          ==> Vec2(r, q) in cells)
  }

  /** `cells` is the map of the whole picture `rows`. */
  predicate Drawn(rows: seq<string>, cells: map<Vec2, Cell>)
  {
    DrawnBefore(rows, cells, |rows|, 0)
  }

  /** The picture determines the map: two maps drawn from the same rows are equal. */
  lemma DrawnUnique(rows: seq<string>, a: map<Vec2, Cell>, b: map<Vec2, Cell>)
    requires Drawn(rows, a) && Drawn(rows, b)
    ensures a == b
  {
    forall p | p in a
      ensures p in b
    {
      assert Vec2(p.x, p.y) == p;
    }
    forall p | p in b
      ensures p in a
    {
      assert Vec2(p.x, p.y) == p;
    }
  }

  /** `Map::create_from_lines`: one cell per character other than `.`, at (column, row). */
  method CreateFromLines(lines: seq<string>) returns (cells: map<Vec2, Cell>)
    requires Drawable(lines)
    ensures Drawn(NonEmpty(lines), cells)
  {
    var rows := NonEmpty(lines);
    cells := map[];
    var y := 0;
    while y < |rows|
      invariant 0 <= y <= |rows|
      invariant DrawnBefore(rows, cells, y, 0)
    {
      var line := rows[y];
      var x := 0;
      while x < |line|
        invariant 0 <= x <= |line|
        invariant DrawnBefore(rows, cells, y, x)
      {
        var ch := line[x];
        if ch != '.' {
          assert Vec2(x, y) !in cells;
          cells := cells[Vec2(x, y) := CellOf(ch)];
        }
        x := x + 1;
      }
      y := y + 1;
    }
  }

  /** The position of `q` among the neighbours of `p` in the order left, right, up, down; 4 for any other cell. */
  function Rank(p: Vec2, q: Vec2): nat
  {
    if q == Vec2(p.x - 1, p.y) then 0
    else if q == Vec2(p.x + 1, p.y) then 1
    else if q == Vec2(p.x, p.y - 1) then 2
    else if q == Vec2(p.x, p.y + 1) then 3
    else 4
  }

  function Present(cells: map<Vec2, Cell>, q: Vec2): seq<(Vec2, Cell)>
  {
    if q in cells then [(q, cells[q])] else []
  }

  /** `get_nearby_cells`: the neighbours that are on the map, with their cells. */
  function GetNearbyCells(cells: map<Vec2, Cell>, p: Vec2): (r: seq<(Vec2, Cell)>)
    ensures |r| <= 4
  {
    Present(cells, Neighbour(p, 0)) + Present(cells, Neighbour(p, 1))
    + Present(cells, Neighbour(p, 2)) + Present(cells, Neighbour(p, 3))
  }

  /** The neighbour of `p` at position `k` (0 to 3) in the order left, right, up, down. */
  function Neighbour(p: Vec2, k: int): Vec2
  {
    if k == 0 then Vec2(p.x - 1, p.y)
    else if k == 1 then Vec2(p.x + 1, p.y)
    else if k == 2 then Vec2(p.x, p.y - 1)
    else Vec2(p.x, p.y + 1)
  }

  /** Which of the four neighbours the `i`-th nearby cell is. */
  function Slot(cells: map<Vec2, Cell>, p: Vec2, i: int): int
  {
    var a, b, c := |Present(cells, Neighbour(p, 0))|, |Present(cells, Neighbour(p, 1))|, |Present(cells, Neighbour(p, 2))|;
    if i < a then 0 else if i < a + b then 1 else if i < a + b + c then 2 else 3
  }

  lemma NearbyCellAt(cells: map<Vec2, Cell>, p: Vec2, i: int)
    requires 0 <= i < |GetNearbyCells(cells, p)|
    ensures var r := GetNearbyCells(cells, p);
      r[i].0 == Neighbour(p, Slot(cells, p, i)) && r[i].0 in cells && r[i].1 == cells[r[i].0]
  {
    var a, b, c, d := Present(cells, Neighbour(p, 0)), Present(cells, Neighbour(p, 1)),
      Present(cells, Neighbour(p, 2)), Present(cells, Neighbour(p, 3));
    var r := GetNearbyCells(cells, p);
    assert r == a + b + c + d;
    if i < |a| {
      assert r[i] == a[i];
    } else if i < |a| + |b| {
      assert r[i] == b[i - |a|];
    } else if i < |a| + |b| + |c| {
      assert r[i] == c[i - |a| - |b|];
    } else {
      assert r[i] == d[i - |a| - |b| - |c|];
    }
  }

  lemma NeighbourRank(p: Vec2, k: int)
    requires 0 <= k < 4
    ensures Rank(p, Neighbour(p, k)) == k
  {
  }

  /**
   * The nearby cells are the neighbours on the map, each with its cell,
   * each once, in the order left, right, up, down.
   */
  lemma NearbyCellsMeaning(cells: map<Vec2, Cell>, p: Vec2)
    ensures var r := GetNearbyCells(cells, p);
      && (forall i :: 0 <= i < |r| ==> r[i].0 in cells && r[i].1 == cells[r[i].0] && Rank(p, r[i].0) < 4)
      && (forall k :: 0 <= k < 4 && Neighbour(p, k) in cells ==> (Neighbour(p, k), cells[Neighbour(p, k)]) in r)
      && (forall i, j :: 0 <= i < j < |r| ==> Rank(p, r[i].0) < Rank(p, r[j].0))
  {
    var r := GetNearbyCells(cells, p);
    forall i | 0 <= i < |r|
      ensures r[i].0 in cells && r[i].1 == cells[r[i].0] && Rank(p, r[i].0) == Slot(cells, p, i)
    {
      NearbyCellAt(cells, p, i);
      NeighbourRank(p, Slot(cells, p, i));
    }
    forall k | 0 <= k < 4 && Neighbour(p, k) in cells
      ensures (Neighbour(p, k), cells[Neighbour(p, k)]) in r
    {
      var a, b, c, d := Present(cells, Neighbour(p, 0)), Present(cells, Neighbour(p, 1)),
        Present(cells, Neighbour(p, 2)), Present(cells, Neighbour(p, 3));
      assert r == a + b + c + d;
    }
  }

  function CountScaffold(r: seq<(Vec2, Cell)>): (n: nat)
    ensures n <= |r|
  {
    if |r| == 0 then 0 else (if r[0].1 == Scaffold then 1 else 0) + CountScaffold(r[1..])
  }

  lemma {:induction false} CountScaffoldAppend(a: seq<(Vec2, Cell)>, b: seq<(Vec2, Cell)>)
    ensures CountScaffold(a + b) == CountScaffold(a) + CountScaffold(b)
  {
    if |a| > 0 {
      assert (a + b)[0] == a[0] && (a + b)[1..] == a[1..] + b;
      CountScaffoldAppend(a[1..], b);
    } else {
      assert a + b == b;
    }
  }

  /** The test of `part_1_alignment_parameters`: four of the nearby cells are scaffold. */
  predicate IsIntersection(cells: map<Vec2, Cell>, p: Vec2)
  {
    CountScaffold(GetNearbyCells(cells, p)) == 4
  }

  /** A cell is an intersection exactly when all four of its neighbours are scaffold. */
  lemma IntersectionMeans(cells: map<Vec2, Cell>, p: Vec2)
    ensures IsIntersection(cells, p) <==> AllScaffoldAround(cells, p)
  {
    var a, b, c, d := Present(cells, Neighbour(p, 0)), Present(cells, Neighbour(p, 1)),
      Present(cells, Neighbour(p, 2)), Present(cells, Neighbour(p, 3));
    CountScaffoldAppend(a, b);
    CountScaffoldAppend(a + b, c);
    CountScaffoldAppend(a + b + c, d);
  }

  predicate ScaffoldAt(cells: map<Vec2, Cell>, q: Vec2)
  {
    q in cells && cells[q] == Scaffold
  }

  predicate AllScaffoldAround(cells: map<Vec2, Cell>, p: Vec2)
  {
    ScaffoldAt(cells, Vec2(p.x - 1, p.y)) && ScaffoldAt(cells, Vec2(p.x + 1, p.y))
    && ScaffoldAt(cells, Vec2(p.x, p.y - 1)) && ScaffoldAt(cells, Vec2(p.x, p.y + 1))
  }

  /** The intersections of the map: the cells with scaffold on all four sides. */
  ghost function Intersections(cells: map<Vec2, Cell>): set<Vec2>
  {
    set p | p in cells && AllScaffoldAround(cells, p)
  }

  ghost function Pick(s: set<Vec2>): Vec2
    requires s != {}
  {
    var p :| p in s; p
  }

  /** The sum of the alignment parameters x * y over a set of cells. */
  ghost function SumXY(s: set<Vec2>): int
    decreases |s|
  {
    if s == {} then 0 else Pick(s).x * Pick(s).y + SumXY(s - {Pick(s)})
  }

  /** The sum does not depend on the order: any cell can be taken out first. */
  lemma {:induction false} SumXYRemove(s: set<Vec2>, k: Vec2)
    requires k in s
    ensures SumXY(s) == k.x * k.y + SumXY(s - {k})
    decreases |s|
  {
    var j := Pick(s);
    if j != k {
      SumXYRemove(s - {j}, k);
      SumXYRemove(s - {k}, j);
      assert s - {j} - {k} == s - {k} - {j};
    }
  }

  /**
   * `part_1_alignment_parameters`: the cells are visited in the hash map's
   * order, and the sum is that of x * y over the intersections.
   */
  method Part1AlignmentParameters(cells: map<Vec2, Cell>) returns (ret: int)
    ensures ret == SumXY(Intersections(cells))
  {
    ret := 0;
    var keys := cells.Keys;
    while keys != {}
      invariant keys <= cells.Keys
      invariant ret == SumXY(Intersections(cells) - keys)
      decreases keys
    {
      var cell :| cell in keys;
      IntersectionMeans(cells, cell);
      if CountScaffold(GetNearbyCells(cells, cell)) == 4 {
        var done := Intersections(cells) - keys;
        assert Intersections(cells) - (keys - {cell}) == done + {cell};
        SumXYRemove(done + {cell}, cell);
        assert done + {cell} - {cell} == done;
        ret := ret + cell.x * cell.y;
      } else {
        assert Intersections(cells) - (keys - {cell}) == Intersections(cells) - keys;
      }
      keys := keys - {cell};
    }
    assert Intersections(cells) - keys == Intersections(cells);
  }

  // ---------------------------------------------------------------------
  // The command list of part 2
  // ---------------------------------------------------------------------

  datatype Command = TurnRight | TurnLeft | Move(count: nat)

  function Ahead(p: Vec2, d: RobotDirection): Vec2
  {
    Plus(p, MoveVector(d))
  }

  /** The robot as the commands move it: position, direction and the cells it has been on. */
  datatype Robot = Robot(pos: Vec2, dir: RobotDirection, visited: set<Vec2>)

  /**
   * Going `n` cells straight on from `p`, every one of them on the map:
   * where the robot stops and the cells it passes, or None if it leaves the map.
   */
  ghost function Walk(cells: map<Vec2, Cell>, p: Vec2, d: RobotDirection, n: nat): Option<(Vec2, set<Vec2>)>
  {
    if n == 0 then Some((p, {}))
    else match Walk(cells, p, d, n - 1)
      case None => None
      case Some((q, passed)) =>
        if Ahead(q, d) in cells then Some((Ahead(q, d), passed + {Ahead(q, d)})) else None
  }

  /**
   * One command: a turn, or a move of at least one cell that goes on as far
   * as the map does (the cell after the last one is off the map).
   */
  ghost function Perform(cells: map<Vec2, Cell>, r: Robot, c: Command): Option<Robot>
  {
    match c
    case TurnLeft => Some(r.(dir := TurnLeft(r.dir)))
    case TurnRight => Some(r.(dir := TurnRight(r.dir)))
    case Move(n) =>
      match Walk(cells, r.pos, r.dir, n)
      case None => None
      case Some((q, passed)) =>
        if n > 0 && Ahead(q, r.dir) !in cells then Some(Robot(q, r.dir, r.visited + passed)) else None
  }

  /** Carrying out a list of commands in order. */
  ghost function Replay(cells: map<Vec2, Cell>, start: Robot, cmds: seq<Command>): Option<Robot>
  {
    if cmds == [] then Some(start)
    else match Replay(cells, start, cmds[..|cmds| - 1])
      case None => None
      case Some(r) => Perform(cells, r, cmds[|cmds| - 1])
  }

  /** The dead ends: scaffold cells with a single nearby cell. */
  function Ends(cells: map<Vec2, Cell>): set<Vec2>
  {
    set p | p in cells.Keys && cells[p] == Scaffold && |GetNearbyCells(cells, p)| == 1
  }

  function Starts(cells: map<Vec2, Cell>): set<Vec2>
  {
    set p | p in cells.Keys && cells[p].RobotOnScaffold?
  }

  /** The cells the robot must visit: all but the lost robot's. */
  function NonLost(cells: map<Vec2, Cell>): set<Vec2>
  {
    set p | p in cells.Keys && cells[p] != LostRobot
  }

  /** Where the robot starts, facing the way its picture shows. */
  ghost function StartRobot(cells: map<Vec2, Cell>): Robot
    requires |Starts(cells)| == 1
  {
    var start := Pick(Starts(cells));
    Robot(start, cells[start].dir, {start})
  }

  /** The cells of the map straight ahead of `p`. */
  ghost function CellsAhead(cells: map<Vec2, Cell>, p: Vec2, d: RobotDirection): set<Vec2>
  {
    set q | q in cells && match d
      case Up => q.x == p.x && q.y < p.y
      case Down => q.x == p.x && q.y > p.y
      case Left => q.y == p.y && q.x < p.x
      case Right => q.y == p.y && q.x > p.x
  }

  /**
   * The inner loop of `make_command_list`: go straight on while the next
   * cell is on the map, crossing each cell passed off the unvisited set.
   */
  method GoStraight(cells: map<Vec2, Cell>, from: Vec2, d: RobotDirection, unvisited: set<Vec2>)
    returns (pos: Vec2, moveCount: nat, unvisited': set<Vec2>, ghost passed: set<Vec2>)
    ensures Walk(cells, from, d, moveCount) == Some((pos, passed))
    ensures Ahead(pos, d) !in cells
    ensures unvisited' == unvisited - passed
    ensures Ahead(from, d) in cells ==> moveCount > 0 && Ahead(from, d) in passed
  {
    var moveVec := MoveVector(d);
    pos, moveCount, unvisited', passed := from, 0, unvisited, {};
    while true
      invariant Walk(cells, from, d, moveCount) == Some((pos, passed))
      invariant unvisited' == unvisited - passed
      invariant moveCount == 0 ==> pos == from
      invariant moveCount > 0 ==> Ahead(from, d) in passed
      decreases CellsAhead(cells, pos, d)
    {
      var next := Plus(pos, moveVec);
      if next in cells {
        assert CellsAhead(cells, next, d) < CellsAhead(cells, pos, d) by {
          assert next in CellsAhead(cells, pos, d);
        }
        moveCount := moveCount + 1;
        pos := next;
        unvisited' := unvisited' - {next};
        passed := passed + {next};
      } else {
        break;
      }
    }
  }

  /** Replaying one more command is performing it after the others. */
  lemma ReplayAppend(cells: map<Vec2, Cell>, start: Robot, cmds: seq<Command>, c: Command, r: Robot)
    requires Replay(cells, start, cmds) == Some(r)
    ensures Replay(cells, start, cmds + [c]) == Perform(cells, r, c)
  {
    assert (cmds + [c])[..|cmds|] == cmds;
  }

  /**
   * `make_command_list`. The map must have exactly one dead end and one
   * robot (the source asserts both). `None` stands for the source's panics
   * during the walk: no unvisited cell ahead, to the left or to the right,
   * or the walk ending elsewhere than at the dead end. A list it returns
   * drives the robot over every cell but the lost robot's and ends at the
   * dead end.
   */
  method MakeCommandList(cells: map<Vec2, Cell>) returns (r: Option<seq<Command>>)
    requires |Ends(cells)| == 1 && |Starts(cells)| == 1
    ensures r.Some? ==>
      var robot := Replay(cells, StartRobot(cells), r.value);
      robot.Some? && robot.value.pos == Pick(Ends(cells)) && NonLost(cells) <= robot.value.visited
  {
    var end :| end in Ends(cells);
    var start :| start in Starts(cells);
    OnlyElement(Ends(cells), end);
    OnlyElement(Starts(cells), start);
    var unvisited := NonLost(cells);
    unvisited := unvisited - {start};
    var curPos := start;
    var curDirection := cells[start].dir;
    var ret: seq<Command> := [];
    ghost var visited: set<Vec2> := {start};
    while unvisited != {}
      invariant unvisited == NonLost(cells) - visited
      invariant Replay(cells, StartRobot(cells), ret) == Some(Robot(curPos, curDirection, visited))
      decreases unvisited, if Ahead(curPos, curDirection) in unvisited then 0 else 1
    {
      ReplayAppend(cells, StartRobot(cells), ret, Move(0), Robot(curPos, curDirection, visited));
      ReplayAppend(cells, StartRobot(cells), ret, Command.TurnLeft, Robot(curPos, curDirection, visited));
      ReplayAppend(cells, StartRobot(cells), ret, Command.TurnRight, Robot(curPos, curDirection, visited));
      if Ahead(curPos, curDirection) in unvisited {
        var moveCount: nat;
        ghost var passed: set<Vec2>;
        ghost var before := unvisited;
        ghost var from := curPos;
        curPos, moveCount, unvisited, passed := GoStraight(cells, curPos, curDirection, unvisited);
        assert moveCount > 0;
        ReplayAppend(cells, StartRobot(cells), ret, Move(moveCount), Robot(from, curDirection, visited));
        ret := ret + [Move(moveCount)];
        visited := visited + passed;
        assert unvisited < before;
      } else if Ahead(curPos, TurnLeft(curDirection)) in unvisited {
        ret := ret + [Command.TurnLeft];
        curDirection := TurnLeft(curDirection);
      } else if Ahead(curPos, TurnRight(curDirection)) in unvisited {
        ret := ret + [Command.TurnRight];
        curDirection := TurnRight(curDirection);
      } else {
        return None;
      }
    }
    if curPos != end {
      return None;
    }
    assert NonLost(cells) <= visited by {
      forall p | p in NonLost(cells) ensures p in visited {
        assert p !in unvisited;
      }
    }
    return Some(ret);
  }
}
