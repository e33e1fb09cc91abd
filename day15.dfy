/**
 * Day 15 of 2019: the repair droid. The droid's Intcode program asks the
 * device for a move and reports what happened; the device explores the
 * area depth first, always trying the first unexplored neighbour in the
 * order north, east, south, west, and backing up along the moves it made
 * when none is left. Afterwards every simple path to the oxygen system is
 * tried to find the shortest, and oxygen is spread round by round.
 */
module Day15 {
  import opened Common
  import Intcode

  datatype CellState = Unexplored | Wall | Open(isOxygenSystem: bool)

  datatype MoveDirection = North | East | South | West

  /** `MoveDirection::all()`, in the order the device tries them. */
  const AllDirections: seq<MoveDirection> := [North, East, South, West]

  /** The command the droid's program expects for a move. */
  function MoveCommand(d: MoveDirection): int
  {
    match d
    case North => 1
    case South => 2
    case West => 3
    case East => 4
  }

  function Opposite(d: MoveDirection): MoveDirection
  {
    match d
    case North => South
    case East => West
    case South => North
    case West => East
  }

  function MoveVector(d: MoveDirection): Vec2
  {
    match d
    case North => Vec2(0, -1)
    case East => Vec2(1, 0)
    case South => Vec2(0, 1)
    case West => Vec2(-1, 0)
  }

  /** The four commands are 1 to 4, one per direction, and `all()` lists every direction once. */
  lemma MoveCommands(d: MoveDirection, e: MoveDirection)
    ensures 1 <= MoveCommand(d) <= 4
    ensures MoveCommand(d) == MoveCommand(e) ==> d == e
    ensures d in AllDirections
  {
  }

  /** Turning around twice faces the same way, and a move followed by its opposite comes back. */
  lemma OppositeCancels(d: MoveDirection, p: Vec2)
    ensures Opposite(Opposite(d)) == d && Opposite(d) != d
    ensures Plus(Plus(p, MoveVector(d)), MoveVector(Opposite(d))) == p
    ensures Abs(MoveVector(d).x) + Abs(MoveVector(d).y) == 1
  {
  }

  // ---------------------------------------------------------------------
  // The exploring device
  // ---------------------------------------------------------------------

  datatype PendingMove = MovingForward(forward: MoveDirection) | MovingBack(back: MoveDirection)

  /** The state of `Map`; a position absent from `cells` is unexplored. */
  datatype Explorer = Explorer(
    cells: map<Vec2, CellState>,
    pos: Vec2,
    pendingMoving: Option<PendingMove>,
    pastMoves: seq<MoveDirection>,
    moves: nat)

  const MaxMoves: nat := 100000

  /** `get_cell_state`. */
  function GetCellState(cells: map<Vec2, CellState>, v: Vec2): (c: CellState)
    ensures v !in cells ==> c == Unexplored
  {
    if v in cells then cells[v] else Unexplored
  }

  /** `Map::new`: at the origin, which is open and not the oxygen system. */
  const Origin := Vec2(0, 0)
  const Initial := Explorer(map[Origin := Open(false)], Origin, None, [], 0)

  /** The first direction among `dirs` leading to an unexplored cell. */
  function FirstUnexplored(e: Explorer, dirs: seq<MoveDirection>): (r: Option<MoveDirection>)
    ensures r.Some? ==> r.value in dirs && GetCellState(e.cells, Plus(e.pos, MoveVector(r.value))) == Unexplored
    ensures r.None? ==> forall d :: d in dirs ==> GetCellState(e.cells, Plus(e.pos, MoveVector(d))) != Unexplored
  {
    if |dirs| == 0 then None
    else if GetCellState(e.cells, Plus(e.pos, MoveVector(dirs[0]))) == Unexplored then Some(dirs[0])
    else FirstUnexplored(e, dirs[1..])
  }

  /** The chosen direction comes before every other unexplored one. */
  lemma {:induction false} FirstUnexploredIsFirst(e: Explorer, dirs: seq<MoveDirection>)
    requires FirstUnexplored(e, dirs).Some?
    ensures exists i ::
      0 <= i < |dirs| && dirs[i] == FirstUnexplored(e, dirs).value
      && forall j :: 0 <= j < i ==> GetCellState(e.cells, Plus(e.pos, MoveVector(dirs[j]))) != Unexplored
  {
    if GetCellState(e.cells, Plus(e.pos, MoveVector(dirs[0]))) != Unexplored {
      FirstUnexploredIsFirst(e, dirs[1..]);
      var i :| 0 <= i < |dirs[1..]| && dirs[1..][i] == FirstUnexplored(e, dirs[1..]).value
        && forall j :: 0 <= j < i ==> GetCellState(e.cells, Plus(e.pos, MoveVector(dirs[1..][j]))) != Unexplored;
      assert dirs[i + 1] == FirstUnexplored(e, dirs).value;
      forall j | 0 <= j < i + 1
        ensures GetCellState(e.cells, Plus(e.pos, MoveVector(dirs[j]))) != Unexplored
      {
        if j > 0 {
          assert dirs[j] == dirs[1..][j - 1];
        }
      }
    } else {
      assert dirs[0] == FirstUnexplored(e, dirs).value;
    }
  }

  /**
   * `read_number`: a forward move to the first unexplored neighbour; else
   * back out along the last move made; else the end of the exploration.
   */
  function Read(e: Explorer): (Result<int, Intcode.Error>, Explorer)
    requires e.pendingMoving.None?
  {
    match FirstUnexplored(e, AllDirections)
    case Some(d) => (Ok(MoveCommand(d)), e.(pendingMoving := Some(MovingForward(d))))
    case None =>
      if |e.pastMoves| > 0 then
        var back := Opposite(e.pastMoves[|e.pastMoves| - 1]);
        (Ok(MoveCommand(back)),
         e.(pendingMoving := Some(MovingBack(back)), pastMoves := e.pastMoves[..|e.pastMoves| - 1]))
      else (Err(Intcode.UserInitiatedExit), e)
  }

  /**
   * What `write_number` accepts without panicking: a pending move, a status
   * of 0, 1 or 2, never a wall when backing up, and at most 100000 moves.
   */
  predicate CanWrite(e: Explorer, num: int)
  {
    e.pendingMoving.Some? && (num == 0 || num == 1 || num == 2)
    && !(num == 0 && e.pendingMoving.value.MovingBack?)
    && e.moves < MaxMoves
  }

  /**
   * `write_number`: 0 marks the cell ahead a wall; 1 or 2 moves there,
   * recording a forward move and marking the cell open (the oxygen system on
   * 2), or just moves when backing up. Every write counts as a move.
   */
  function Write(e: Explorer, num: int): Explorer
    requires CanWrite(e, num)
  {
    var e1 := e.(pendingMoving := None, moves := e.moves + 1);
    match e.pendingMoving.value
    case MovingForward(d) =>
      var target := Plus(e.pos, MoveVector(d));
      if num == 0 then e1.(cells := e.cells[target := Wall])
      else e1.(pos := target, pastMoves := e.pastMoves + [d], cells := e.cells[target := Open(num == 2)])
    case MovingBack(d) => e1.(pos := Plus(e.pos, MoveVector(d)))
  }

  /** Every prefix of the moves `ms` from the origin ends on an open cell. */
  ghost predicate TrailOpen(cells: map<Vec2, CellState>, ms: seq<MoveDirection>)
  {
    forall k :: 0 <= k <= |ms| ==> GetCellState(cells, Position(ms[..k])).Open?
  }

  /** Where a sequence of moves from the origin ends. */
  function Position(ms: seq<MoveDirection>): Vec2
  {
    if |ms| == 0 then Origin else Plus(Position(ms[..|ms| - 1]), MoveVector(ms[|ms| - 1]))
  }

  /**
   * The device's invariant: the recorded moves lead from the origin through
   * open cells to the droid (or, while backing up, to the cell it backs
   * into); the droid stands on open floor; a forward move targets an
   * unexplored cell.
   */
  ghost predicate Valid(e: Explorer)
  {
    GetCellState(e.cells, e.pos).Open?
    && TrailOpen(e.cells, e.pastMoves)
    && match e.pendingMoving
       case None => Position(e.pastMoves) == e.pos
       case Some(MovingForward(d)) =>
         Position(e.pastMoves) == e.pos && GetCellState(e.cells, Plus(e.pos, MoveVector(d))) == Unexplored
       case Some(MovingBack(d)) => Position(e.pastMoves) == Plus(e.pos, MoveVector(d))
  }

  lemma InitialValid()
    ensures Valid(Initial)
  {
    assert Initial.pastMoves[..0] == [];
  }

  /** A prefix of an open trail is an open trail. */
  lemma TrailPrefix(cells: map<Vec2, CellState>, ms: seq<MoveDirection>, n: nat)
    requires TrailOpen(cells, ms) && n <= |ms|
    ensures TrailOpen(cells, ms[..n])
  {
    forall k | 0 <= k <= n
      ensures GetCellState(cells, Position(ms[..n][..k])).Open?
    {
      assert ms[..n][..k] == ms[..k];
    }
  }

  /** Backing up: the shortened trail leads to the cell the droid backs into. */
  lemma ReadBackValid(e: Explorer)
    requires Valid(e) && e.pendingMoving.None?
    requires FirstUnexplored(e, AllDirections).None? && |e.pastMoves| > 0
    ensures Valid(Read(e).1)
  {
    var ms := e.pastMoves;
    var n := |ms| - 1;
    var e' := Read(e).1;
    assert e' == e.(pendingMoving := Some(MovingBack(Opposite(ms[n]))), pastMoves := ms[..n]);
    assert ms[..n + 1] == ms;
    OppositeCancels(ms[n], Position(ms[..n]));
    TrailPrefix(e.cells, ms, n);
  }

  /** A read keeps the invariant; the forward choice is the first unexplored direction. */
  lemma ReadValid(e: Explorer)
    requires Valid(e) && e.pendingMoving.None?
    ensures Valid(Read(e).1)
    ensures Read(e).1.cells == e.cells && Read(e).1.pos == e.pos && Read(e).1.moves == e.moves
  {
    if FirstUnexplored(e, AllDirections).None? && |e.pastMoves| > 0 {
      ReadBackValid(e);
    }
  }

  /** A write keeps the invariant. */
  lemma WriteValid(e: Explorer, num: int)
    requires Valid(e) && CanWrite(e, num)
    ensures Valid(Write(e, num))
  {
    var e' := Write(e, num);
    var ms := e.pastMoves;
    match e.pendingMoving.value {
      case MovingForward(d) =>
        var target := Plus(e.pos, MoveVector(d));
        if num != 0 {
          var ms' := ms + [d];
          assert ms'[..|ms|] == ms;
          forall k | 0 <= k <= |ms'|
            ensures GetCellState(e'.cells, Position(ms'[..k])).Open?
          {
            if k <= |ms| {
              assert ms'[..k] == ms[..k];
            } else {
              assert ms'[..k] == ms';
            }
          }
        }
      case MovingBack(d) =>
        assert ms[..|ms|] == ms;
    }
  }

  /** A read fails exactly when no neighbour is unexplored and no move is left to undo. */
  lemma ReadFails(e: Explorer)
    requires e.pendingMoving.None?
    ensures Read(e).0.Err? <==> FirstUnexplored(e, AllDirections).None? && |e.pastMoves| == 0
  {
  }

  /** The exploration ends only back at the origin, with no move left to undo. */
  lemma ExplorationEnds(e: Explorer)
    requires Valid(e) && e.pendingMoving.None? && Read(e).0.Err?
    ensures e.pos == Origin && e.pastMoves == []
  {
    ReadFails(e);
    AtRest(e);
    assert Position([]) == Origin;
  }

  /** With no move pending, the recorded moves lead to the droid. */
  lemma AtRest(e: Explorer)
    requires Valid(e) && e.pendingMoving.None?
    ensures Position(e.pastMoves) == e.pos
  {
  }

  /** The exploration ends only when every neighbour of the droid is explored. */
  lemma ExplorationEndsExplored(e: Explorer)
    requires e.pendingMoving.None? && Read(e).0.Err?
    ensures forall d :: GetCellState(e.cells, Plus(e.pos, MoveVector(d))) != Unexplored
  {
    ReadFails(e);
    AllExplored(e);
  }

  lemma AllExplored(e: Explorer)
    requires FirstUnexplored(e, AllDirections).None?
    ensures forall d :: GetCellState(e.cells, Plus(e.pos, MoveVector(d))) != Unexplored
  {
    forall d
      ensures GetCellState(e.cells, Plus(e.pos, MoveVector(d))) != Unexplored
    {
      MoveCommands(d, d);
    }
  }

  /** Each write adds one to the move count, which stays within the limit. */
  lemma WriteCounts(e: Explorer, num: int)
    requires CanWrite(e, num)
    ensures Write(e, num).moves == e.moves + 1 <= MaxMoves && Write(e, num).pendingMoving.None?
  {
  }

  /** `Map` as the Intcode program's device. */
  class MapIo {
    var cells: map<Vec2, CellState>
    var pos: Vec2
    var pendingMoving: Option<PendingMove>
    var pastMoves: seq<MoveDirection>
    var moves: nat

    function Snapshot(): Explorer
      reads this
    {
      Explorer(cells, pos, pendingMoving, pastMoves, moves)
    }

    /** `Map::new`. */
    constructor New()
      ensures Snapshot() == Initial
    {
      cells := map[Origin := Open(false)];
      pos := Origin;
      pendingMoving := None;
      pastMoves := [];
      moves := 0;
    }

    method PromptForNumber() returns (r: Result<(), Intcode.Error>)
      ensures r == Ok(())
    {
      r := Ok(());
    }

    method ReadNumber() returns (r: Result<int, Intcode.Error>)
      requires pendingMoving.None?
      modifies this
      ensures (r, Snapshot()) == Read(old(Snapshot()))
    {
      var i := 0;
      while i < |AllDirections|
        invariant 0 <= i <= |AllDirections|
        invariant FirstUnexplored(Snapshot(), AllDirections) == FirstUnexplored(Snapshot(), AllDirections[i..])
      {
        var moveDir := AllDirections[i];
        var newPos := Plus(pos, MoveVector(moveDir));
        if GetCellState(cells, newPos) == Unexplored {
          pendingMoving := Some(MovingForward(moveDir));
          return Ok(MoveCommand(moveDir));
        }
        assert AllDirections[i..][1..] == AllDirections[i + 1..];
        i := i + 1;
      }
      if |pastMoves| > 0 {
        var moveDir := pastMoves[|pastMoves| - 1];
        pastMoves := pastMoves[..|pastMoves| - 1];
        pendingMoving := Some(MovingBack(Opposite(moveDir)));
        return Ok(MoveCommand(Opposite(moveDir)));
      }
      r := Err(Intcode.UserInitiatedExit);
    }

    method WriteNumber(num: int) returns (r: Result<(), Intcode.Error>)
      requires CanWrite(Snapshot(), num)
      modifies this
      ensures r == Ok(()) && Snapshot() == Write(old(Snapshot()), num)
    {
      var pendingMove := pendingMoving.value;
      pendingMoving := None;
      match pendingMove {
        case MovingForward(d) =>
          if num == 0 {
            cells := cells[Plus(pos, MoveVector(d)) := Wall];
          } else {
            pos := Plus(pos, MoveVector(d));
            pastMoves := pastMoves + [d];
            cells := cells[pos := Open(num == 2)];
          }
        case MovingBack(d) =>
          pos := Plus(pos, MoveVector(d));
      }
      moves := moves + 1;
      r := Ok(());
    }
  }

  // ---------------------------------------------------------------------
  // The distance to the oxygen system: every simple path is tried
  // ---------------------------------------------------------------------

  ghost function OpenCells(cells: map<Vec2, CellState>): set<Vec2>
  {
    set v | v in cells && cells[v].Open?
  }

  ghost function Elements(prev: seq<Vec2>): set<Vec2>
  {
    set v | v in prev
  }

  /** Two cells one step apart. */
  predicate Adjacent(a: Vec2, b: Vec2)
  {
    Abs(a.x - b.x) + Abs(a.y - b.y) == 1
  }

  /** The better of two answers, keeping the first on a tie. */
  function MinOption(a: Option<nat>, b: Option<nat>): (r: Option<nat>)
    ensures r.Some? <==> a.Some? || b.Some?
    ensures r == a || r == b
    ensures r.Some? && a.Some? ==> r.value <= a.value
    ensures r.Some? && b.Some? ==> r.value <= b.value
  {
    match (a, b)
    case (None, _) => b
    case (_, None) => a
    case (Some(x), Some(y)) => if x > y then Some(y) else Some(x)
  }

  /**
   * `try_find_distance_to_oxygen_system`: `prev` is the path walked so far
   * (the source keeps it twice, as a vector and as a set). A cell already on
   * the path or not open gives nothing; the goal gives the path's length;
   * otherwise the best answer over the four neighbours.
   */
  function TryFindDistance(cells: map<Vec2, CellState>, next: Vec2, goal: Vec2, prev: seq<Vec2>): (r: Option<nat>)
    requires forall v :: v in prev ==> GetCellState(cells, v).Open?
    ensures r.Some? ==> r.value >= |prev| && next !in prev && GetCellState(cells, next).Open?
    ensures next == goal && next !in prev && GetCellState(cells, next).Open? ==> r == Some(|prev|)
    decreases |OpenCells(cells) - Elements(prev)|
  {
    if next in prev then None
    else if !GetCellState(cells, next).Open? then None
    else if next == goal then Some(|prev|)
    else
      var prev' := prev + [next];
      assert Elements(prev') == Elements(prev) + {next};
      assert OpenCells(cells) - Elements(prev') < OpenCells(cells) - Elements(prev);
      var best := MinOption(None, TryFindDistance(cells, Plus(next, MoveVector(North)), goal, prev'));
      var best := MinOption(best, TryFindDistance(cells, Plus(next, MoveVector(East)), goal, prev'));
      var best := MinOption(best, TryFindDistance(cells, Plus(next, MoveVector(South)), goal, prev'));
      MinOption(best, TryFindDistance(cells, Plus(next, MoveVector(West)), goal, prev'))
  }

  /**
   * A simple path from `a` to `b` through open cells, stepping between
   * adjacent cells and never visiting a cell of `avoid`.
   */
  ghost predicate SimplePath(cells: map<Vec2, CellState>, p: seq<Vec2>, a: Vec2, b: Vec2, avoid: seq<Vec2>)
  {
    |p| > 0 && p[0] == a && p[|p| - 1] == b
    && (forall i :: 0 <= i < |p| ==> GetCellState(cells, p[i]).Open? && p[i] !in avoid)
    && (forall i :: 0 < i < |p| ==> Adjacent(p[i - 1], p[i]))
    && (forall i, j :: 0 <= i < j < |p| ==> p[i] != p[j])
  }

  /** Extending a path backwards by the cell it was entered from. */
  lemma ExtendPath(cells: map<Vec2, CellState>, p: seq<Vec2>, next: Vec2, d: MoveDirection, goal: Vec2, prev: seq<Vec2>)
    requires SimplePath(cells, p, Plus(next, MoveVector(d)), goal, prev + [next])
    requires GetCellState(cells, next).Open? && next !in prev
    ensures SimplePath(cells, [next] + p, next, goal, prev)
  {
    var q := [next] + p;
    OppositeCancels(d, next);
    forall i | 0 <= i < |q|
      ensures GetCellState(cells, q[i]).Open? && q[i] !in prev
    {
      if i > 0 {
        assert q[i] == p[i - 1];
      }
    }
    forall i | 0 < i < |q|
      ensures Adjacent(q[i - 1], q[i])
    {
      if i > 1 {
        assert q[i - 1] == p[i - 2] && q[i] == p[i - 1];
      }
    }
    forall i, j | 0 <= i < j < |q|
      ensures q[i] != q[j]
    {
      assert q[j] == p[j - 1];
      if i > 0 {
        assert q[i] == p[i - 1];
      } else {
        assert p[j - 1] !in prev + [next];
      }
    }
  }

  /** One of the four neighbours' answers, turned into a path from `next`. */
  lemma StepSound(cells: map<Vec2, CellState>, next: Vec2, goal: Vec2, prev: seq<Vec2>, d: MoveDirection)
    requires forall v :: v in prev ==> GetCellState(cells, v).Open?
    requires GetCellState(cells, next).Open? && next !in prev
    requires TryFindDistance(cells, Plus(next, MoveVector(d)), goal, prev + [next]).Some?
    ensures exists p :: (SimplePath(cells, p, next, goal, prev)
      && |p| == TryFindDistance(cells, Plus(next, MoveVector(d)), goal, prev + [next]).value - |prev| + 1)
    decreases |OpenCells(cells) - Elements(prev)|, 0
  {
    var prev' := prev + [next];
    assert Elements(prev') == Elements(prev) + {next};
    assert OpenCells(cells) - Elements(prev') < OpenCells(cells) - Elements(prev);
    TryFindSound(cells, Plus(next, MoveVector(d)), goal, prev');
    var p :| SimplePath(cells, p, Plus(next, MoveVector(d)), goal, prev')
      && |p| == TryFindDistance(cells, Plus(next, MoveVector(d)), goal, prev').value - |prev'| + 1;
    ExtendPath(cells, p, next, d, goal, prev);
  }

  /**
   * Every answer of the search is the length of a real route: a simple path
   * through open cells from `next` to the goal, avoiding the path walked so
   * far, of `r - |prev|` steps.
   */
  lemma {:induction false} TryFindSound(cells: map<Vec2, CellState>, next: Vec2, goal: Vec2, prev: seq<Vec2>)
    requires forall v :: v in prev ==> GetCellState(cells, v).Open?
    requires TryFindDistance(cells, next, goal, prev).Some?
    ensures exists p :: (SimplePath(cells, p, next, goal, prev)
      && |p| == TryFindDistance(cells, next, goal, prev).value - |prev| + 1)
    decreases |OpenCells(cells) - Elements(prev)|, 1
  {
    if next == goal {
      assert SimplePath(cells, [next], next, goal, prev);
    } else {
      var prev' := prev + [next];
      var rs := [
        TryFindDistance(cells, Plus(next, MoveVector(North)), goal, prev'),
        TryFindDistance(cells, Plus(next, MoveVector(East)), goal, prev'),
        TryFindDistance(cells, Plus(next, MoveVector(South)), goal, prev'),
        TryFindDistance(cells, Plus(next, MoveVector(West)), goal, prev')];
      var r := TryFindDistance(cells, next, goal, prev);
      assert r == MinOption(MinOption(MinOption(MinOption(None, rs[0]), rs[1]), rs[2]), rs[3]);
      if r == rs[3] {
        StepSound(cells, next, goal, prev, West);
      } else if r == rs[2] {
        StepSound(cells, next, goal, prev, South);
      } else if r == rs[1] {
        StepSound(cells, next, goal, prev, East);
      } else {
        StepSound(cells, next, goal, prev, North);
      }
    }
  }

  /**
   * `find_distance_to_oxygen_system`, with the oxygen system's cell as a
   * parameter (the source takes the first one met in the hash map's
   * iteration order). `None` stands for the panic of the final `unwrap`.
   */
  function FindDistanceToOxygenSystem(cells: map<Vec2, CellState>, goal: Vec2): (r: Option<nat>)
    requires goal in cells && cells[goal] == Open(true)
    ensures r.Some? ==> RouteOfLength(cells, Origin, goal, r.value)
    ensures goal == Origin && Origin in cells ==> r == Some(0)
  {
    var r := TryFindDistance(cells, Origin, goal, []);
    if r.Some? then
      RouteFrom(cells, Origin, goal, []);
      r
    else r
  }

  /** A simple route of `n` steps from `start` to `goal` through open cells. */
  ghost predicate RouteOfLength(cells: map<Vec2, CellState>, start: Vec2, goal: Vec2, n: nat)
  {
    exists p :: SimplePath(cells, p, start, goal, []) && |p| == n + 1
  }

  /** The search started on an empty path answers with the length of a route. */
  lemma RouteFrom(cells: map<Vec2, CellState>, start: Vec2, goal: Vec2, prev: seq<Vec2>)
    requires prev == [] && TryFindDistance(cells, start, goal, prev).Some?
    ensures RouteOfLength(cells, start, goal, TryFindDistance(cells, start, goal, prev).value)
  {
    TryFindSound(cells, start, goal, prev);
  }

  // ---------------------------------------------------------------------
  // Oxygen spreading round by round
  // ---------------------------------------------------------------------

  /** A cell that holds oxygen (the source reuses the oxygen-system flag). */
  predicate HasOxygen(m: map<Vec2, CellState>, v: Vec2)
  {
    v in m && m[v] == Open(true)
  }

  ghost predicate NextToOxygen(m: map<Vec2, CellState>, k: Vec2)
  {
    HasOxygen(m, Plus(k, MoveVector(North))) || HasOxygen(m, Plus(k, MoveVector(East)))
    || HasOxygen(m, Plus(k, MoveVector(South))) || HasOxygen(m, Plus(k, MoveVector(West)))
  }

  /** The open cells still without oxygen. */
  ghost function FreeCells(m: map<Vec2, CellState>): set<Vec2>
  {
    set k | k in m && m[k] == Open(false)
  }

  /** One round: every oxygen-free open cell next to an oxygen cell gets oxygen. */
  ghost function Spread(m: map<Vec2, CellState>): map<Vec2, CellState>
  {
    map k | k in m :: if m[k] == Open(false) && NextToOxygen(m, k) then Open(true) else m[k]
  }

  lemma {:induction false} ProperSubsetSmaller<T>(a: set<T>, b: set<T>)
    requires a < b
    ensures |a| < |b|
  {
    assert exists y :: y in b && y !in a;
    var x :| x in b && x !in a;
    assert a <= b - {x};
    SubsetNoLarger(a, b - {x});
  }

  lemma {:induction false} SubsetNoLarger<T>(a: set<T>, b: set<T>)
    requires a <= b
    ensures |a| <= |b|
    decreases |a|
  {
    if a != {} {
      var x :| x in a;
      SubsetNoLarger(a - {x}, b - {x});
    }
  }

  /** A round keeps the explored cells and never takes oxygen away; it only ever fills cells. */
  lemma SpreadShrinks(m: map<Vec2, CellState>)
    ensures Spread(m).Keys == m.Keys
    ensures forall k :: HasOxygen(m, k) ==> HasOxygen(Spread(m), k)
    ensures FreeCells(Spread(m)) <= FreeCells(m)
    ensures Spread(m) != m ==> FreeCells(Spread(m)) < FreeCells(m) && |FreeCells(Spread(m))| < |FreeCells(m)|
  {
    var m' := Spread(m);
    if m' != m {
      var k :| k in m && m'[k] != m[k];
      assert k in FreeCells(m) && k !in FreeCells(m');
      ProperSubsetSmaller(FreeCells(m'), FreeCells(m));
    }
  }

  /** The state after `n` rounds. */
  ghost function Rounds(m: map<Vec2, CellState>, n: nat): map<Vec2, CellState>
  {
    if n == 0 then m else Rounds(Spread(m), n - 1)
  }

  /**
   * The answer of `find_minutes_required_for_oxygen_to_propagate`: the
   * number of rounds until no oxygen-free open cell is left. `None` where
   * a round changes nothing while such a cell remains, where the source
   * loops forever.
   */
  ghost function Minutes(m: map<Vec2, CellState>): Option<nat>
    decreases |FreeCells(m)|
  {
    if FreeCells(m) == {} then Some(0)
    else if Spread(m) == m then None
    else
      SpreadShrinks(m);
      match Minutes(Spread(m))
      case Some(n) => Some(n + 1)
      case None => None
  }

  /** A round that changes something costs one minute, and the rest follows from the map after it. */
  lemma MinutesUnfold(m: map<Vec2, CellState>)
    requires FreeCells(m) != {} && Spread(m) != m
    ensures |FreeCells(Spread(m))| < |FreeCells(m)|
    ensures Minutes(m) == match Minutes(Spread(m)) case Some(n) => Some(n + 1) case None => None
  {
    SpreadShrinks(m);
  }

  /** One round fewer after the first: the answer counts the rounds one by one. */
  lemma MinutesStep(m: map<Vec2, CellState>)
    requires Minutes(m).Some? && FreeCells(m) != {}
    ensures Minutes(Spread(m)).Some? && Minutes(m).value == Minutes(Spread(m)).value + 1
    ensures |FreeCells(Spread(m))| < |FreeCells(m)|
  {
    SpreadShrinks(m);
  }

  /** The answer is the first round after which every open cell holds oxygen. */
  lemma {:induction false} MinutesFirst(m: map<Vec2, CellState>)
    requires Minutes(m).Some?
    ensures FreeCells(Rounds(m, Minutes(m).value)) == {}
    ensures forall k :: 0 <= k < Minutes(m).value ==> FreeCells(Rounds(m, k)) != {}
    decreases |FreeCells(m)|
  {
    if FreeCells(m) != {} {
      var m' := Spread(m);
      MinutesStep(m);
      var n := Minutes(m').value;
      MinutesFirst(m');
      assert Rounds(m, n + 1) == Rounds(m', n);
      forall k | 0 < k < n + 1
        ensures FreeCells(Rounds(m, k)) != {}
      {
        assert Rounds(m, k) == Rounds(m', k - 1);
      }
    } else {
      assert Minutes(m) == Some(0) && Rounds(m, 0) == m;
    }
  }

  /** With no answer, some round reaches a standstill with oxygen-free cells left: the source never returns. */
  lemma {:induction false} MinutesStuck(m: map<Vec2, CellState>)
    requires Minutes(m).None?
    ensures exists k: nat :: Spread(Rounds(m, k)) == Rounds(m, k) && FreeCells(Rounds(m, k)) != {}
    decreases |FreeCells(m)|
  {
    if Spread(m) == m {
      assert Rounds(m, 0) == m;
    } else {
      SpreadShrinks(m);
      MinutesStuck(Spread(m));
      var k: nat :| Spread(Rounds(Spread(m), k)) == Rounds(Spread(m), k) && FreeCells(Rounds(Spread(m), k)) != {};
      assert Rounds(m, k + 1) == Rounds(Spread(m), k);
    }
  }

  /**
   * `find_minutes_required_for_oxygen_to_propagate`: rounds are run until
   * one finds no oxygen-free open cell. Where the source would loop forever
   * the model stops at the first round that changes nothing.
   */
  method FindMinutesRequiredForOxygenToPropagate(cells: map<Vec2, CellState>) returns (r: Option<nat>)
    ensures r == Minutes(cells)
  {
    var m := cells;
    var count: nat := 0;
    while true
      invariant Minutes(cells) == match Minutes(m) case Some(n) => Some(n + count) case None => None
      decreases |FreeCells(m)|
    {
      var nextMap, found := SpreadRound(m);
      if !found {
        return Some(count);
      }
      if nextMap == m {
        return None;
      }
      MinutesUnfold(m);
      m := nextMap;
      count := count + 1;
    }
  }

  /** One pass of the round over `map`'s cells, writing into `next_map`. */
  method SpreadRound(m: map<Vec2, CellState>) returns (nextMap: map<Vec2, CellState>, found: bool)
    ensures nextMap == Spread(m)
    ensures found <==> FreeCells(m) != {}
  {
    nextMap := m;
    found := false;
    var keys := m.Keys;
    while keys != {}
      invariant keys <= m.Keys && nextMap.Keys == m.Keys
      invariant forall k :: k in keys ==> nextMap[k] == m[k]
      invariant forall k :: k in m && k !in keys ==> nextMap[k] == Spread(m)[k]
      invariant found <==> FreeCells(m) - keys != {}
      decreases keys
    {
      var k :| k in keys;
      if m[k] == Open(false) {
        found := true;
        nextMap := FillCell(m, nextMap, k);
      }
      keys := keys - {k};
    }
  }

  /** The inner loop over the four directions for one oxygen-free cell `k`. */
  method FillCell(m: map<Vec2, CellState>, nextMap: map<Vec2, CellState>, k: Vec2) returns (next': map<Vec2, CellState>)
    requires k in m && m[k] == Open(false) && k in nextMap && nextMap[k] == m[k]
    ensures next' == if NextToOxygen(m, k) then nextMap[k := Open(true)] else nextMap
  {
    next' := nextMap;
    var i := 0;
    while i < |AllDirections|
      invariant 0 <= i <= |AllDirections|
      invariant next' == if exists j :: 0 <= j < i && HasOxygen(m, Plus(k, MoveVector(AllDirections[j])))
        then nextMap[k := Open(true)] else nextMap
    {
      if HasOxygen(m, Plus(k, MoveVector(AllDirections[i]))) {
        next' := next'[k := Open(true)];
      }
      i := i + 1;
    }
    OxygenNeighbour(m, k);
  }

  lemma OxygenNeighbour(m: map<Vec2, CellState>, k: Vec2)
    ensures NextToOxygen(m, k) <==> exists j :: 0 <= j < |AllDirections| && HasOxygen(m, Plus(k, MoveVector(AllDirections[j])))
  {
    if NextToOxygen(m, k) {
      var d :| HasOxygen(m, Plus(k, MoveVector(d)));
      MoveCommands(d, d);
      var j :| 0 <= j < |AllDirections| && AllDirections[j] == d;
    }
  }
}
