/**
 * Day 13 of 2019: the arcade cabinet's screen, the I/O device an Intcode
 * program drives. Outputs come in triples `x, y, t`: the triple `-1, 0, v`
 * sets the segment display to `v`, any other one draws tile `t` at `(x, y)`.
 * A read steers the joystick towards the ball: the sign of the ball's `x`
 * minus the paddle's.
 */
module Day13 {
  import opened Common
  import Intcode

  datatype TileType = Empty | Wall | Block | HorizontalPaddle | Ball

  /** The tile a drawn value names; other values panic. */
  function TileOf(num: int): (t: TileType)
    requires 0 <= num <= 4
    ensures TileNumber(t) == num
  {
    if num == 0 then Empty
    else if num == 1 then Wall
    else if num == 2 then Block
    else if num == 3 then HorizontalPaddle
    else Ball
  }

  function TileNumber(t: TileType): (num: int)
    ensures 0 <= num <= 4
  {
    match t
    case Empty => 0
    case Wall => 1
    case Block => 2
    case HorizontalPaddle => 3
    case Ball => 4
  }

  /** How much of the current triple has arrived. */
  datatype WriteNumberState = NoneReceived | OneReceived(x: int) | TwoReceived(x: int, y: int)

  datatype Screen = Screen(draw: WriteNumberState, screen: map<(int, int), TileType>, segmentDisplay: Option<int>)

  /** `ScreenState::new`: nothing drawn, no score. */
  const Initial := Screen(NoneReceived, map[], None)

  /** A value the screen accepts in its current state: a tile number must be 0 to 4. */
  predicate Accepts(s: Screen, num: int)
  {
    s.draw.TwoReceived? && !(s.draw.x == -1 && s.draw.y == 0) ==> 0 <= num <= 4
  }

  /** `write_number`. */
  function Write(s: Screen, num: int): (s': Screen)
    requires Accepts(s, num)
  {
    match s.draw
    case NoneReceived => s.(draw := OneReceived(num))
    case OneReceived(x) => s.(draw := TwoReceived(x, num))
    case TwoReceived(x, y) =>
      if x == -1 && y == 0 then s.(draw := NoneReceived, segmentDisplay := Some(num))
      else s.(draw := NoneReceived, screen := s.screen[(x, y) := TileOf(num)])
  }

  /** A triple value acceptable in the third place after `x, y`. */
  predicate TripleAccepted(x: int, y: int, t: int)
  {
    (x == -1 && y == 0) || 0 <= t <= 4
  }

  /**
   * Three writes from a fresh triple: the score triple changes only the
   * display, any other triple only the one tile, and the machine is ready for
   * the next triple.
   */
  lemma TripleMeaning(s: Screen, x: int, y: int, t: int)
    requires s.draw == NoneReceived && TripleAccepted(x, y, t)
    ensures var s1 := Write(s, x);
      var s2 := Write(s1, y);
      Accepts(s2, t)
      && var s3 := Write(s2, t);
      s3.draw == NoneReceived
      && (x == -1 && y == 0 ==> s3.screen == s.screen && s3.segmentDisplay == Some(t))
      && (!(x == -1 && y == 0) ==>
            s3.segmentDisplay == s.segmentDisplay
            && (x, y) in s3.screen && TileNumber(s3.screen[(x, y)]) == t
            && s3.screen.Keys == s.screen.Keys + {(x, y)}
            && forall k :: k in s.screen && k != (x, y) ==> s3.screen[k] == s.screen[k])
  {
  }

  /** The screen after a sequence of triples. */
  function Triples(s: Screen, ts: seq<(int, int, int)>): (s': Screen)
    requires s.draw == NoneReceived
    requires forall i :: 0 <= i < |ts| ==> TripleAccepted(ts[i].0, ts[i].1, ts[i].2)
    ensures s'.draw == NoneReceived
    decreases |ts|
  {
    if |ts| == 0 then s
    else
      var (x, y, t) := ts[0];
      TripleMeaning(s, x, y, t);
      Triples(Write(Write(Write(s, x), y), t), ts[1..])
  }

  /** The tiles only ever grow: a drawn cell is never removed, only redrawn. */
  lemma {:induction false} TriplesKeepTiles(s: Screen, ts: seq<(int, int, int)>)
    requires s.draw == NoneReceived
    requires forall i :: 0 <= i < |ts| ==> TripleAccepted(ts[i].0, ts[i].1, ts[i].2)
    ensures s.screen.Keys <= Triples(s, ts).screen.Keys
    ensures s.segmentDisplay.Some? ==> Triples(s, ts).segmentDisplay.Some?
    decreases |ts|
  {
    if |ts| > 0 {
      var (x, y, t) := ts[0];
      TripleMeaning(s, x, y, t);
      TriplesKeepTiles(Write(Write(Write(s, x), y), t), ts[1..]);
    }
  }

  /** The cells showing tile `t`. */
  function CellsOf(screen: map<(int, int), TileType>, t: TileType): set<(int, int)>
  {
    set k | k in screen && screen[k] == t
  }

  /** Part 1's answer: the number of block tiles on the screen. */
  function BlockCount(s: Screen): nat
  {
    |CellsOf(s.screen, Block)|
  }

  /** The sign of `a - b`, as `Ordering` maps it. */
  function Sign(a: int, b: int): (r: int)
    ensures r == -1 <==> a < b
    ensures r == 0 <==> a == b
    ensures r == 1 <==> a > b
  {
    if a < b then -1 else if a == b then 0 else 1
  }

  /**
   * The joystick follows the ball: moving the paddle by the value read for
   * ball column `a` and paddle column `b` brings it one column closer, or
   * keeps it under the ball.
   */
  lemma PaddleStepCloses(a: int, b: int)
    ensures Abs(a - (b + Sign(a, b))) == if a == b then 0 else Abs(a - b) - 1
  {
  }

  class ScreenState {
    var draw: WriteNumberState
    var screen: map<(int, int), TileType>
    var segmentDisplay: Option<int>

    function Snapshot(): Screen
      reads this
    {
      Screen(draw, screen, segmentDisplay)
    }

    constructor New()
      ensures Snapshot() == Initial
    {
      draw := NoneReceived;
      screen := map[];
      segmentDisplay := None;
    }

    /** `get_location_of_tile`: panics unless exactly one cell shows the tile. */
    method GetLocationOfTile(tile: TileType) returns (r: (int, int))
      requires |CellsOf(screen, tile)| == 1
      ensures r in screen && screen[r] == tile
      ensures CellsOf(screen, tile) == {r}
    {
      var cells := CellsOf(screen, tile);
      r :| r in cells;
      OnlyElement(cells, r);
    }

    /** `read_number`: the joystick follows the ball. */
    method ReadNumber() returns (r: Result<int, Intcode.Error>)
      requires |CellsOf(screen, HorizontalPaddle)| == 1 && |CellsOf(screen, Ball)| == 1
      ensures forall b, p :: b in CellsOf(screen, Ball) && p in CellsOf(screen, HorizontalPaddle) ==>
        r == Ok(Sign(b.0, p.0))
    {
      var paddle := GetLocationOfTile(HorizontalPaddle);
      var ball := GetLocationOfTile(Ball);
      if ball.0 < paddle.0 {
        r := Ok(-1);
      } else if ball.0 == paddle.0 {
        r := Ok(0);
      } else {
        r := Ok(1);
      }
    }

    method WriteNumber(num: int) returns (r: Result<(), Intcode.Error>)
      requires Accepts(Snapshot(), num)
      modifies this
      ensures r == Ok(())
      ensures Snapshot() == Write(old(Snapshot()), num)
    {
      match draw {
        case NoneReceived =>
          draw := OneReceived(num);
        case OneReceived(x) =>
          draw := TwoReceived(x, num);
        case TwoReceived(x, y) =>
          if x == -1 && y == 0 {
            segmentDisplay := Some(num);
          } else {
            screen := screen[(x, y) := TileOf(num)];
          }
          draw := NoneReceived;
      }
      r := Ok(());
    }
  }

  /** A wall, a score of 12, and a block: one block on the screen, the score shown. */
  lemma DrawExample()
    ensures var s := Triples(Initial, [(0, 0, 1), (-1, 0, 12), (1, 0, 2)]);
      s.screen == map[(0, 0) := Wall, (1, 0) := Block] && s.segmentDisplay == Some(12)
      && BlockCount(s) == 1
  {
    var ts := [(0, 0, 1), (-1, 0, 12), (1, 0, 2)];
    var s1 := Screen(NoneReceived, map[(0, 0) := Wall], None);
    var s2 := s1.(segmentDisplay := Some(12));
    var s3 := s2.(screen := map[(0, 0) := Wall, (1, 0) := Block]);
    assert Triples(s3, ts[3..]) == s3;
    assert Triples(s2, ts[2..]) == s3;
    assert Triples(s1, ts[1..]) == s3;
    assert Triples(Initial, ts) == s3;
    assert CellsOf(s3.screen, Block) == {(1, 0)};
  }
}
