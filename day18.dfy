/**
 * Day 18 of 2019: the vault of keys and doors. The maze is parsed from its
 * picture; the search collects the keys one at a time, each time by a
 * breadth-first walk from the current position through open cells, and for
 * every key it reaches it recurses on a copy of the maze in which that key
 * and its door have become open floor.
 */
module Day18 {
  import opened Common

  datatype Cell = Wall | Open | Key(key: char) | Door

  datatype Maze = Maze(start: Vec2, cells: seq<seq<Cell>>, doorLocations: map<char, Vec2>, keyCount: nat)

  predicate IsLower(c: char) { 'a' <= c <= 'z' }
  predicate IsUpper(c: char) { 'A' <= c <= 'Z' }

  /** `to_ascii_uppercase` on a lower-case letter. */
  function Upper(c: char): (u: char)
    requires IsLower(c)
    ensures IsUpper(u)
  {
    (c as int - 32) as char
  }

  // ---------------------------------------------------------------------
  // The grid
  // ---------------------------------------------------------------------

  predicate InGrid(cells: seq<seq<Cell>>, p: Vec2)
  {
    0 <= p.y < |cells| && 0 <= p.x < |cells[p.y]|
  }

  function CellAt(cells: seq<seq<Cell>>, p: Vec2): Cell
    requires InGrid(cells, p)
  {
    cells[p.y][p.x]
  }

  function SetCell(cells: seq<seq<Cell>>, p: Vec2, c: Cell): seq<seq<Cell>>
    requires InGrid(cells, p)
  {
    cells[p.y := cells[p.y][p.x := c]]
  }

  function IsKeyCell(c: Cell): nat
  {
    if c.Key? then 1 else 0
  }

  /** The number of key cells in a row. */
  function RowKeys(row: seq<Cell>): nat
  {
    if |row| == 0 then 0 else RowKeys(row[..|row| - 1]) + IsKeyCell(row[|row| - 1])
  }

  /** The number of key cells in the grid. */
  function KeysIn(cells: seq<seq<Cell>>): nat
  {
    if |cells| == 0 then 0 else KeysIn(cells[..|cells| - 1]) + RowKeys(cells[|cells| - 1])
  }

  lemma {:induction false} RowKeysSet(row: seq<Cell>, x: nat, c: Cell)
    requires x < |row|
    ensures RowKeys(row[x := c]) + IsKeyCell(row[x]) == RowKeys(row) + IsKeyCell(c)
    decreases |row|
  {
    var n := |row| - 1;
    assert row[x := c][..n] == if x < n then row[..n][x := c] else row[..n];
    if x < n {
      RowKeysSet(row[..n], x, c);
    }
  }

  lemma {:induction false} KeysInSet(cells: seq<seq<Cell>>, p: Vec2, c: Cell)
    requires InGrid(cells, p)
    ensures KeysIn(SetCell(cells, p, c)) + IsKeyCell(CellAt(cells, p)) == KeysIn(cells) + IsKeyCell(c)
    decreases |cells|
  {
    var n := |cells| - 1;
    var cells' := SetCell(cells, p, c);
    if p.y < n {
      assert cells'[..n] == SetCell(cells[..n], p, c);
      KeysInSet(cells[..n], p, c);
    } else {
      assert cells'[..n] == cells[..n];
      RowKeysSet(cells[n], p.x, c);
    }
  }

  /** Setting one cell changes that cell only. */
  lemma SetCellFacts(cells: seq<seq<Cell>>, p: Vec2, c: Cell)
    requires InGrid(cells, p)
    ensures forall q :: InGrid(SetCell(cells, p, c), q) <==> InGrid(cells, q)
    ensures CellAt(SetCell(cells, p, c), p) == c
    ensures forall q :: InGrid(cells, q) && q != p ==> CellAt(SetCell(cells, p, c), q) == CellAt(cells, q)
  {
  }

  /** `get_cell`; `None` where the index is out of range and the source panics. */
  function GetCell(m: Maze, pos: Vec2): (r: Option<Cell>)
    ensures r.Some? <==> InGrid(m.cells, pos)
    ensures r.Some? ==> r.value == CellAt(m.cells, pos)
  {
    if InGrid(m.cells, pos) then Some(m.cells[pos.y][pos.x]) else None
  }

  /**
   * What the search relies on: the start is open floor, each recorded door
   * is a door cell of its own, the key count is the number of key cells, and
   * keys are lower-case letters.
   */
  ghost predicate Valid(m: Maze)
  {
    InGrid(m.cells, m.start) && CellAt(m.cells, m.start) == Open
    && (forall c :: c in m.doorLocations ==>
          InGrid(m.cells, m.doorLocations[c]) && CellAt(m.cells, m.doorLocations[c]) == Door)
    && (forall c, d :: c in m.doorLocations && d in m.doorLocations && c != d ==>
          m.doorLocations[c] != m.doorLocations[d])
    && m.keyCount == KeysIn(m.cells)
    && (forall p :: InGrid(m.cells, p) && CellAt(m.cells, p).Key? ==> IsLower(CellAt(m.cells, p).key))
  }

  // ---------------------------------------------------------------------
  // Parsing
  // ---------------------------------------------------------------------

  /** The trimmed lines that are not empty, split on both line-end characters. */
  function KeptLines(parts: seq<string>): (lines: seq<string>)
  {
    if |parts| == 0 then []
    else
      var t := Trim(parts[0]);
      (if |t| == 0 then [] else [t]) + KeptLines(parts[1..])
  }

  function Lines(input: string): seq<string>
  {
    KeptLines(SplitWhen(input, {'\r', '\n'}))
  }

  predicate SameLengths(lines: seq<string>)
  {
    |lines| > 0 && forall i :: 0 <= i < |lines| ==> |lines[i]| == |lines[0]|
  }

  predicate ValidChar(ch: char)
  {
    ch == '#' || ch == '.' || ch == '@' || IsLower(ch) || IsUpper(ch)
  }

  /** The cell a character stands for. */
  function CellFor(ch: char): Cell
    requires ValidChar(ch)
  {
    if ch == '#' then Wall
    else if ch == '.' || ch == '@' then Open
    else if IsLower(ch) then Key(ch)
    else Door
  }

  /** What the scan has gathered so far besides the cells. */
  datatype Scan = Scan(start: Option<Vec2>, doors: map<char, Vec2>, keyCount: nat)

  const Unscanned := Scan(None, map[], 0)

  /** One character at `(x, y)`: a second door of a letter, a second start or an unknown character panics. */
  function StepCell(st: Scan, ch: char, x: nat, y: nat): Option<(Scan, Cell)>
  {
    if ch == '#' then Some((st, Wall))
    else if ch == '.' then Some((st, Open))
    else if IsLower(ch) then Some((st.(keyCount := st.keyCount + 1), Key(ch)))
    else if IsUpper(ch) then
      if ch in st.doors then None else Some((st.(doors := st.doors[ch := Vec2(x, y)]), Door))
    else if ch == '@' then
      if st.start.Some? then None else Some((st.(start := Some(Vec2(x, y))), Open))
    else None
  }

  /** The scan of line `y`. */
  function ScanRow(st: Scan, line: string, y: nat): (r: Option<(Scan, seq<Cell>)>)
    ensures r.Some? ==> |r.value.1| == |line|
  {
    if |line| == 0 then Some((st, []))
    else
      match ScanRow(st, line[..|line| - 1], y)
      case None => None
      case Some((s1, row)) =>
        match StepCell(s1, line[|line| - 1], |line| - 1, y)
        case None => None
        case Some((s2, c)) => Some((s2, row + [c]))
  }

  /** The scan of the lines, top to bottom. */
  function ScanRows(st: Scan, lines: seq<string>): (r: Option<(Scan, seq<seq<Cell>>)>)
    ensures r.Some? ==> |r.value.1| == |lines|
  {
    if |lines| == 0 then Some((st, []))
    else
      match ScanRows(st, lines[..|lines| - 1])
      case None => None
      case Some((s1, cells)) =>
        match ScanRow(s1, lines[|lines| - 1], |lines| - 1)
        case None => None
        case Some((s2, row)) => Some((s2, cells + [row]))
  }

  /** `Maze::parse`; `None` where the source panics. */
  function ParseMaze(input: string): Option<Maze>
  {
    var lines := Lines(input);
    if !SameLengths(lines) then None
    else
      match ScanRows(Unscanned, lines)
      case None => None
      case Some((st, cells)) =>
        if st.start.None? then None else Some(Maze(st.start.value, cells, st.doors, st.keyCount))
  }

  /** A failed scan of a prefix of a line is a failed scan of the line. */
  lemma {:induction false} ScanRowFails(st: Scan, line: string, y: nat, n: nat)
    requires n <= |line| && ScanRow(st, line[..n], y).None?
    ensures ScanRow(st, line, y).None?
    decreases |line| - n
  {
    if n < |line| {
      assert line[..n + 1][..n] == line[..n];
      ScanRowFails(st, line, y, n + 1);
    } else {
      assert line[..n] == line;
    }
  }

  /** A failed scan of the first lines is a failed scan of them all. */
  lemma {:induction false} ScanRowsFails(st: Scan, lines: seq<string>, n: nat)
    requires n <= |lines| && ScanRows(st, lines[..n]).None?
    ensures ScanRows(st, lines).None?
    decreases |lines| - n
  {
    if n < |lines| {
      assert lines[..n + 1][..n] == lines[..n];
      ScanRowsFails(st, lines, n + 1);
    } else {
      assert lines[..n] == lines;
    }
  }

  /** Scanning one more line extends the scan of those before it. */
  lemma ScanRowsNext(st: Scan, lines: seq<string>, y: nat, s1: Scan, cells: seq<seq<Cell>>, s2: Scan, row: seq<Cell>)
    requires y < |lines|
    requires ScanRows(st, lines[..y]) == Some((s1, cells)) && ScanRow(s1, lines[y], y) == Some((s2, row))
    ensures ScanRows(st, lines[..y + 1]) == Some((s2, cells + [row]))
  {
    var prefix := lines[..y + 1];
    assert prefix[..y] == lines[..y] && prefix[y] == lines[y];
  }

  /** Scanning one more character extends the scan of those before it. */
  lemma ScanRowStep(st: Scan, line: string, y: nat, x: nat, s1: Scan, row: seq<Cell>, s2: Scan, c: Cell)
    requires x < |line| && ScanRow(st, line[..x], y) == Some((s1, row))
    requires StepCell(s1, line[x], x, y) == Some((s2, c))
    ensures ScanRow(st, line[..x + 1], y) == Some((s2, row + [c]))
  {
    assert line[..x + 1][..x] == line[..x];
  }

  /** The inner loop of `Maze::parse`: the cells of line `y`, updating the start, the doors and the key count. */
  method ParseRow(st: Scan, line: string, y: nat) returns (r: Option<(Scan, seq<Cell>)>)
    ensures r == ScanRow(st, line, y)
  {
    var start, doorLocations, keyCount := st.start, st.doors, st.keyCount;
    var row: seq<Cell> := [];
    var x := 0;
    while x < |line|
      invariant 0 <= x <= |line|
      invariant ScanRow(st, line[..x], y) == Some((Scan(start, doorLocations, keyCount), row))
    {
      assert line[..x + 1][..x] == line[..x];
      ghost var before := Scan(start, doorLocations, keyCount);
      var ch := line[x];
      var cell: Cell;
      if ch == '#' {
        cell := Wall;
      } else if ch == '.' {
        cell := Open;
      } else if 'a' <= ch <= 'z' {
        keyCount := keyCount + 1;
        cell := Key(ch);
      } else if 'A' <= ch <= 'Z' {
        if ch in doorLocations {
          ScanRowFails(st, line, y, x + 1);
          return None;
        }
        doorLocations := doorLocations[ch := Vec2(x, y)];
        cell := Door;
      } else if ch == '@' {
        if start.Some? {
          ScanRowFails(st, line, y, x + 1);
          return None;
        }
        start := Some(Vec2(x, y));
        cell := Open;
      } else {
        ScanRowFails(st, line, y, x + 1);
        return None;
      }
      ScanRowStep(st, line, y, x, before, row, Scan(start, doorLocations, keyCount), cell);
      row := row + [cell];
      x := x + 1;
    }
    assert line[..x] == line;
    r := Some((Scan(start, doorLocations, keyCount), row));
  }

  /** `Maze::parse`. */
  method Parse(input: string) returns (r: Option<Maze>)
    ensures r == ParseMaze(input)
  {
    var lines := Lines(input);
    if |lines| == 0 || !SameLengths(lines) {
      return None;
    }
    var st := Unscanned;
    var cells: seq<seq<Cell>> := [];
    var y := 0;
    while y < |lines|
      invariant 0 <= y <= |lines|
      invariant ScanRows(Unscanned, lines[..y]) == Some((st, cells))
    {
      assert lines[..y + 1][..y] == lines[..y];
      var row := ParseRow(st, lines[y], y);
      if row.None? {
        ScanRowsFails(Unscanned, lines, y + 1);
        return None;
      }
      ScanRowsNext(Unscanned, lines, y, st, cells, row.value.0, row.value.1);
      st, cells := row.value.0, cells + [row.value.1];
      y := y + 1;
    }
    assert lines[..y] == lines;
    if st.start.None? {
      return None;
    }
    r := Some(Maze(st.start.value, cells, st.doors, st.keyCount));
  }

  // ---------------------------------------------------------------------
  // What the scan has established
  // ---------------------------------------------------------------------

  predicate InLines(lines: seq<string>, p: Vec2)
  {
    0 <= p.y < |lines| && 0 <= p.x < |lines[p.y]|
  }

  function CharAt(lines: seq<string>, p: Vec2): char
  {
    if InLines(lines, p) then lines[p.y][p.x] else ' '
  }

  /**
   * The scan of the first cells of `lines` (the last row possibly partial):
   * each cell is what its character stands for, the key count counts the key
   * cells, every door letter seen is recorded at its place, and the start is
   * the only '@' seen.
   */
  ghost predicate Sound(st: Scan, lines: seq<string>, cells: seq<seq<Cell>>)
  {
    |cells| <= |lines|
    && (forall p :: InGrid(cells, p) ==>
          InLines(lines, p) && ValidChar(CharAt(lines, p)) && CellAt(cells, p) == CellFor(CharAt(lines, p)))
    && st.keyCount == KeysIn(cells)
    && (forall c :: c in st.doors ==> IsUpper(c) && InGrid(cells, st.doors[c]) && CharAt(lines, st.doors[c]) == c)
    && (forall p :: InGrid(cells, p) && IsUpper(CharAt(lines, p)) ==> CharAt(lines, p) in st.doors)
    && (forall p :: InGrid(cells, p) && CharAt(lines, p) == '@' ==> st.start == Some(p))
    && (st.start.Some? ==> InGrid(cells, st.start.value) && CharAt(lines, st.start.value) == '@')
  }

  /** Adding a cell to the last row keeps the old cells and adds one place. */
  lemma GridGrow(cells: seq<seq<Cell>>, row: seq<Cell>, c: Cell)
    ensures var g, g' := cells + [row], cells + [row + [c]];
      (forall p :: InGrid(g', p) <==> InGrid(g, p) || p == Vec2(|row|, |cells|))
      && (forall p :: InGrid(g, p) ==> CellAt(g', p) == CellAt(g, p))
      && CellAt(g', Vec2(|row|, |cells|)) == c
      && KeysIn(g') == KeysIn(g) + IsKeyCell(c)
  {
    var g, g' := cells + [row], cells + [row + [c]];
    assert g'[..|cells|] == cells == g[..|cells|];
    assert (row + [c])[..|row|] == row;
  }

  lemma {:induction false} StepSound(st: Scan, lines: seq<string>, cells: seq<seq<Cell>>, row: seq<Cell>, st': Scan, c: Cell)
    requires |cells| < |lines| && |row| < |lines[|cells|]|
    requires Sound(st, lines, cells + [row])
    requires StepCell(st, lines[|cells|][|row|], |row|, |cells|) == Some((st', c))
    ensures Sound(st', lines, cells + [row + [c]])
  {
    var g, g' := cells + [row], cells + [row + [c]];
    var q := Vec2(|row|, |cells|);
    GridGrow(cells, row, c);
    assert CharAt(lines, q) == lines[|cells|][|row|];
    var ch := CharAt(lines, q);
    assert !InGrid(g, q);
    if IsUpper(ch) && ch !in st.doors {
      assert st'.doors == st.doors[ch := q];
    } else {
      assert st'.doors == st.doors;
    }
  }

  lemma {:induction false} ScanRowSound(st: Scan, lines: seq<string>, cells: seq<seq<Cell>>, n: nat)
    requires |cells| < |lines| && n <= |lines[|cells|]|
    requires Sound(st, lines, cells + [[]])
    ensures var r := ScanRow(st, lines[|cells|][..n], |cells|);
      r.Some? ==> Sound(r.value.0, lines, cells + [r.value.1])
    decreases n
  {
    var line := lines[|cells|][..n];
    if n > 0 {
      assert line[..n - 1] == lines[|cells|][..n - 1];
      ScanRowSound(st, lines, cells, n - 1);
      var r1 := ScanRow(st, line[..n - 1], |cells|);
      if r1.Some? {
        var (s1, row) := r1.value;
        assert line[n - 1] == lines[|cells|][|row|];
        var step := StepCell(s1, line[n - 1], n - 1, |cells|);
        if step.Some? {
          StepSound(s1, lines, cells, row, step.value.0, step.value.1);
        }
      }
    }
  }

  lemma {:induction false} ScanRowsSound(lines: seq<string>, n: nat)
    requires n <= |lines|
    ensures var r := ScanRows(Unscanned, lines[..n]);
      r.Some? ==>
        Sound(r.value.0, lines, r.value.1)
        && forall y :: 0 <= y < n ==> |r.value.1[y]| == |lines[y]|
    decreases n
  {
    if n == 0 {
      assert forall p :: !InGrid([], p);
    } else {
      var prefix := lines[..n];
      assert prefix[..n - 1] == lines[..n - 1];
      ScanRowsSound(lines, n - 1);
      var r1 := ScanRows(Unscanned, lines[..n - 1]);
      if r1.Some? {
        var (s1, cells) := r1.value;
        var line := lines[n - 1];
        SoundEmptyRow(s1, lines, cells);
        ScanRowSound(s1, lines, cells, |line|);
        assert line[..|line|] == line;
        var r2 := ScanRow(s1, line, n - 1);
        if r2.Some? {
          ScanRowsNext(Unscanned, lines, n - 1, s1, cells, r2.value.0, r2.value.1);
          RowLengthsNext(lines, cells, r2.value.1);
        }
      }
    }
  }

  /** A sound scan of complete rows is a sound scan with an empty row started. */
  lemma SoundEmptyRow(st: Scan, lines: seq<string>, cells: seq<seq<Cell>>)
    requires Sound(st, lines, cells) && |cells| < |lines|
    ensures Sound(st, lines, cells + [[]])
  {
    GridEmptyRow(cells);
  }

  /** Rows as long as their lines stay so when a row as long as the next line is added. */
  lemma RowLengthsNext(lines: seq<string>, cells: seq<seq<Cell>>, row: seq<Cell>)
    requires |cells| < |lines| && |row| == |lines[|cells|]|
    requires forall y :: 0 <= y < |cells| ==> |cells[y]| == |lines[y]|
    ensures forall y :: 0 <= y < |cells| + 1 ==> |(cells + [row])[y]| == |lines[y]|
  {
  }

  /** An empty last row adds no place. */
  lemma GridEmptyRow(cells: seq<seq<Cell>>)
    ensures forall p :: InGrid(cells + [[]], p) <==> InGrid(cells, p)
    ensures forall p :: InGrid(cells, p) ==> CellAt(cells + [[]], p) == CellAt(cells, p)
    ensures KeysIn(cells + [[]]) == KeysIn(cells)
  {
    assert (cells + [[]])[..|cells|] == cells;
  }

  /** The whole scan of a parsed maze is sound, row by row as long as its lines. */
  lemma ParsedSound(input: string)
    ensures var r := ParseMaze(input);
      var lines := Lines(input);
      r.Some? ==>
        Sound(Scan(Some(r.value.start), r.value.doorLocations, r.value.keyCount), lines, r.value.cells)
        && |r.value.cells| == |lines|
        && (forall y :: 0 <= y < |lines| ==> |r.value.cells[y]| == |lines[y]|)
        && (forall p :: InLines(lines, p) ==> InGrid(r.value.cells, p))
  {
    var lines := Lines(input);
    assert lines[..|lines|] == lines;
    ScanRowsSound(lines, |lines|);
  }

  /** A sound scan that found the start describes a valid maze. */
  lemma SoundValid(st: Scan, lines: seq<string>, cells: seq<seq<Cell>>)
    requires Sound(st, lines, cells) && st.start.Some?
    ensures Valid(Maze(st.start.value, cells, st.doors, st.keyCount))
  {
    forall c | c in st.doors
      ensures CellAt(cells, st.doors[c]) == Door
    {
      assert CellAt(cells, st.doors[c]) == CellFor(c);
    }
    forall c, d | c in st.doors && d in st.doors && c != d
      ensures st.doors[c] != st.doors[d]
    {
      assert CharAt(lines, st.doors[c]) == c;
    }
    forall p | InGrid(cells, p) && CellAt(cells, p).Key?
      ensures IsLower(CellAt(cells, p).key)
    {
      assert CellAt(cells, p) == CellFor(CharAt(lines, p));
    }
  }

  /** A parsed maze is valid. */
  lemma ParseValid(input: string)
    ensures ParseMaze(input).Some? ==> Valid(ParseMaze(input).value)
  {
    var r := ParseMaze(input);
    ParsedSound(input);
    if r.Some? {
      SoundValid(Scan(Some(r.value.start), r.value.doorLocations, r.value.keyCount), Lines(input), r.value.cells);
    }
  }

  /**
   * The parsed maze is what its picture shows: each cell stands for its
   * character, the start is the one '@', and the key count counts the keys.
   */
  lemma ParseCells(input: string)
    ensures var r := ParseMaze(input);
      var lines := Lines(input);
      r.Some? ==>
        |r.value.cells| == |lines|
        && (forall y :: 0 <= y < |lines| ==> |r.value.cells[y]| == |lines[y]|)
        && (forall p :: InLines(lines, p) ==>
              InGrid(r.value.cells, p) && ValidChar(CharAt(lines, p))
              && CellAt(r.value.cells, p) == CellFor(CharAt(lines, p)))
        && InLines(lines, r.value.start) && CharAt(lines, r.value.start) == '@'
        && (forall p :: InLines(lines, p) && CharAt(lines, p) == '@' ==> p == r.value.start)
        && r.value.keyCount == KeysIn(r.value.cells)
  {
    ParsedSound(input);
  }

  /**
   * `get_cell` on a parsed maze reads its picture: a position inside the
   * picture gives the cell its character stands for, and any other position
   * is out of range.
   */
  lemma GetCellReadsPicture(input: string, p: Vec2)
    requires ParseMaze(input).Some?
    ensures var lines := Lines(input);
      var r := GetCell(ParseMaze(input).value, p);
      (r.Some? <==> InLines(lines, p))
      && (r.Some? ==> ValidChar(CharAt(lines, p)) && r.value == CellFor(CharAt(lines, p)))
  {
    ParseCells(input);
    var lines := Lines(input);
    var cells := ParseMaze(input).value.cells;
    assert |cells| == |lines| && forall y :: 0 <= y < |lines| ==> |cells[y]| == |lines[y]|;
    assert InGrid(cells, p) <==> InLines(lines, p);
  }

  /** Each door letter in the picture is recorded, at the place where it stands, and nothing else is. */
  lemma ParseDoors(input: string)
    ensures var r := ParseMaze(input);
      var lines := Lines(input);
      r.Some? ==>
        (forall c :: c in r.value.doorLocations <==>
           IsUpper(c) && exists p :: InLines(lines, p) && CharAt(lines, p) == c)
        && (forall c :: c in r.value.doorLocations ==> CharAt(lines, r.value.doorLocations[c]) == c)
  {
    var r := ParseMaze(input);
    ParsedSound(input);
    if r.Some? {
      var lines := Lines(input);
      var m := r.value;
      forall c | IsUpper(c) && exists p :: InLines(lines, p) && CharAt(lines, p) == c
        ensures c in m.doorLocations
      {
        var p :| InLines(lines, p) && CharAt(lines, p) == c;
        assert InGrid(m.cells, p);
      }
      forall c | c in m.doorLocations
        ensures exists p :: InLines(lines, p) && CharAt(lines, p) == c
      {
        assert InLines(lines, m.doorLocations[c]);
      }
    }
  }

  /** The characters a picture may hold only once: door letters and the start. */
  predicate OnlyOnce(c: char)
  {
    IsUpper(c) || c == '@'
  }

  /** `p` is read before the character at `(x, y)`. */
  predicate Before(p: Vec2, y: int, x: int)
  {
    p.y < y || (p.y == y && p.x < x)
  }

  /** Up to `(x, y)` every character is known and no door letter or start repeats. */
  ghost predicate Clean(lines: seq<string>, y: int, x: int)
  {
    (forall p :: InLines(lines, p) && Before(p, y, x) ==> ValidChar(CharAt(lines, p)))
    && (forall p, q ::
          (InLines(lines, p) && InLines(lines, q) && Before(p, y, x) && Before(q, y, x)
           && CharAt(lines, p) == CharAt(lines, q) && OnlyOnce(CharAt(lines, p))) ==> p == q)
  }

  /** A picture `Maze::parse` accepts: rectangular, known characters, each door letter at most once, exactly one start. */
  ghost predicate WellFormedPicture(lines: seq<string>)
  {
    SameLengths(lines)
    && (forall p :: InLines(lines, p) ==> ValidChar(CharAt(lines, p)))
    && (forall p, q ::
          (InLines(lines, p) && InLines(lines, q)
           && CharAt(lines, p) == CharAt(lines, q) && OnlyOnce(CharAt(lines, p))) ==> p == q)
    && exists p :: InLines(lines, p) && CharAt(lines, p) == '@'
  }

  /** Complete rows and a partial row cover exactly the places read before the next one. */
  lemma RegionIsPrefix(lines: seq<string>, cells: seq<seq<Cell>>, row: seq<Cell>)
    requires |cells| < |lines| && |row| <= |lines[|cells|]|
    requires forall y :: 0 <= y < |cells| ==> |cells[y]| == |lines[y]|
    ensures forall p :: InGrid(cells + [row], p) <==> InLines(lines, p) && Before(p, |cells|, |row|)
  {
  }

  /** One more character keeps the picture clean exactly when it is known and does not repeat a door letter or the start. */
  lemma CleanStep(lines: seq<string>, y: nat, x: nat)
    requires y < |lines| && x < |lines[y]|
    ensures var ch := lines[y][x];
      Clean(lines, y, x + 1) <==>
        Clean(lines, y, x) && ValidChar(ch)
        && !(OnlyOnce(ch) && exists p :: InLines(lines, p) && Before(p, y, x) && CharAt(lines, p) == ch)
  {
    var here := Vec2(x, y);
    assert CharAt(lines, here) == lines[y][x];
    forall p
      ensures Before(p, y, x + 1) <==> Before(p, y, x) || p == here
    {
      if p.y == y && p.x == x {
        assert p == here;
      }
    }
  }

  /** Given a sound scan so far, the next step fails exactly on an unknown character or a repeat. */
  lemma StepFails(st: Scan, lines: seq<string>, cells: seq<seq<Cell>>, row: seq<Cell>)
    requires |cells| < |lines| && |row| < |lines[|cells|]|
    requires forall y :: 0 <= y < |cells| ==> |cells[y]| == |lines[y]|
    requires Sound(st, lines, cells + [row])
    ensures var ch := lines[|cells|][|row|];
      StepCell(st, ch, |row|, |cells|).Some? <==>
        ValidChar(ch)
        && !(OnlyOnce(ch) && exists p :: InLines(lines, p) && Before(p, |cells|, |row|) && CharAt(lines, p) == ch)
  {
    var ch := lines[|cells|][|row|];
    var g := cells + [row];
    RegionIsPrefix(lines, cells, row);
    if IsUpper(ch) && ch in st.doors {
      assert InLines(lines, st.doors[ch]) && Before(st.doors[ch], |cells|, |row|);
    }
    if ch == '@' && st.start.Some? {
      assert InLines(lines, st.start.value) && Before(st.start.value, |cells|, |row|);
    }
  }

  lemma {:induction false} ScanRowComplete(st: Scan, lines: seq<string>, cells: seq<seq<Cell>>, n: nat)
    requires |cells| < |lines| && n <= |lines[|cells|]|
    requires forall y :: 0 <= y < |cells| ==> |cells[y]| == |lines[y]|
    requires Sound(st, lines, cells + [[]]) && Clean(lines, |cells|, 0)
    ensures ScanRow(st, lines[|cells|][..n], |cells|).Some? <==> Clean(lines, |cells|, n)
    decreases n
  {
    var y := |cells|;
    var line := lines[y][..n];
    if n > 0 {
      assert line[..n - 1] == lines[y][..n - 1];
      ScanRowComplete(st, lines, cells, n - 1);
      ScanRowSound(st, lines, cells, n - 1);
      CleanStep(lines, y, n - 1);
      var r1 := ScanRow(st, line[..n - 1], y);
      if r1.Some? {
        var (s1, row) := r1.value;
        assert line[n - 1] == lines[y][|row|];
        StepFails(s1, lines, cells, row);
      }
    }
  }

  /** A clean last row is a clean start of the next one. */
  lemma CleanRow(lines: seq<string>, y: nat)
    requires y < |lines|
    ensures Clean(lines, y, |lines[y]|) <==> Clean(lines, y + 1, 0)
  {
    assert forall p :: InLines(lines, p) ==> (Before(p, y, |lines[y]|) <==> Before(p, y + 1, 0));
  }

  lemma {:induction false} ScanRowsComplete(lines: seq<string>, n: nat)
    requires n <= |lines|
    ensures ScanRows(Unscanned, lines[..n]).Some? <==> Clean(lines, n, 0)
    decreases n
  {
    if n > 0 {
      var prefix := lines[..n];
      assert prefix[..n - 1] == lines[..n - 1];
      ScanRowsComplete(lines, n - 1);
      ScanRowsSound(lines, n - 1);
      var r1 := ScanRows(Unscanned, lines[..n - 1]);
      var line := lines[n - 1];
      assert line[..|line|] == line;
      CleanRow(lines, n - 1);
      if r1.Some? {
        var (s1, cells) := r1.value;
        SoundEmptyRow(s1, lines, cells);
        ScanRowComplete(s1, lines, cells, |line|);
      } else {
        CleanMonotone(lines, n - 1, |line|);
      }
    }
  }

  /** A picture clean up to a row is clean up to the rows before it. */
  lemma CleanMonotone(lines: seq<string>, y: nat, x: nat)
    ensures Clean(lines, y, x) ==> Clean(lines, y, 0)
  {
    assert forall p :: Before(p, y, 0) ==> Before(p, y, x);
  }

  /** `Maze::parse` succeeds exactly on a well-formed picture; otherwise it panics. */
  lemma ParseSucceeds(input: string)
    ensures ParseMaze(input).Some? <==> WellFormedPicture(Lines(input))
  {
    var lines := Lines(input);
    assert lines[..|lines|] == lines;
    ScanRowsComplete(lines, |lines|);
    CleanWhole(lines);
    ScanWholeStart(lines);
  }

  /** Clean up to the end of the last line is clean everywhere. */
  lemma CleanWhole(lines: seq<string>)
    ensures Clean(lines, |lines|, 0) <==>
      (forall p :: InLines(lines, p) ==> ValidChar(CharAt(lines, p)))
      && (forall p, q ::
            (InLines(lines, p) && InLines(lines, q)
             && CharAt(lines, p) == CharAt(lines, q) && OnlyOnce(CharAt(lines, p))) ==> p == q)
  {
    assert forall p :: InLines(lines, p) ==> Before(p, |lines|, 0);
  }

  /** A scan of every line finds a start exactly when the picture holds an `@`. */
  lemma ScanWholeStart(lines: seq<string>)
    ensures var r := ScanRows(Unscanned, lines);
      r.Some? ==> (r.value.0.start.Some? <==> exists p :: InLines(lines, p) && CharAt(lines, p) == '@')
  {
    assert lines[..|lines|] == lines;
    ScanRowsSound(lines, |lines|);
    var r := ScanRows(Unscanned, lines);
    if r.Some? && (exists p :: InLines(lines, p) && CharAt(lines, p) == '@') {
      var p :| InLines(lines, p) && CharAt(lines, p) == '@';
      assert InGrid(r.value.1, p);
    }
  }

  /** The characters of the two kinds of row in the `test_parse` maze. */
  lemma SimpleRows(wall: string, middle: string)
    requires wall == "#########" && middle == "#b.A.@.a#"
    ensures forall k :: 0 <= k < |wall| ==> wall[k] == '#'
    ensures forall k :: 0 <= k < |middle| ==> ValidChar(middle[k])
    ensures forall k :: 0 <= k < |middle| && OnlyOnce(middle[k]) ==> k == 3 || k == 5
    ensures middle[3] == 'A' && middle[5] == '@'
  {
  }

  /** The `test_parse` maze has three lines: the blank first and last lines are dropped. */
  lemma SimpleLines(input: string, wall: string, middle: string)
    requires input == "\n#########\n#b.A.@.a#\n#########\n"
    requires wall == "#########" && middle == "#b.A.@.a#"
    ensures Lines(input) == [wall, middle, wall]
  {
    SimpleRows(wall, middle);
    var blank: string := "";
    var parts := [blank] + ([wall] + ([middle] + ([wall] + [blank])));
    SimpleJoined(input, wall, middle, blank);
    SplitJoin(parts, '\n', {'\r', '\n'});
    TrimNoWhitespace(wall);
    TrimNoWhitespace(middle);
    KeptBetweenBlanks(wall, middle, wall, blank);
  }

  /** The `test_parse` text is its lines joined by line ends, with a blank line first and last. */
  lemma SimpleJoined(input: string, wall: string, middle: string, blank: string)
    requires input == "\n#########\n#b.A.@.a#\n#########\n"
    requires wall == "#########" && middle == "#b.A.@.a#" && blank == ""
    ensures input == Join([blank] + ([wall] + ([middle] + ([wall] + [blank]))), '\n')
  {
    var nl := "\n";
    JoinCons(wall, [blank], '\n');
    JoinCons(middle, [wall] + [blank], '\n');
    JoinCons(wall, [middle] + ([wall] + [blank]), '\n');
    JoinCons(blank, [wall] + ([middle] + ([wall] + [blank])), '\n');
    assert input == blank + nl + (wall + nl + (middle + nl + (wall + nl + blank)));
  }

  lemma JoinCons(a: string, rest: seq<string>, sep: char)
    requires |rest| >= 1
    ensures Join([a] + rest, sep) == a + [sep] + Join(rest, sep)
  {
    assert ([a] + rest)[1..] == rest;
  }

  /** A line that trims to itself before a blank line is kept alone. */
  lemma KeptBeforeBlank(c: string, blank: string)
    requires |c| > 0 && Trim(c) == c && blank == ""
    ensures KeptLines([c] + [blank]) == [c]
  {
    assert Trim(blank) == blank;
    KeptCons(blank, []);
    assert [blank] + [] == [blank];
    KeptLine(c, [blank], []);
  }

  /** Three lines that trim to themselves, between a blank first and last line, are kept as they are. */
  lemma KeptBetweenBlanks(a: string, b: string, c: string, blank: string)
    requires |a| > 0 && |b| > 0 && |c| > 0 && Trim(a) == a && Trim(b) == b && Trim(c) == c && blank == ""
    ensures KeptLines([blank] + ([a] + ([b] + ([c] + [blank])))) == [a, b, c]
  {
    KeptBeforeBlank(c, blank);
    KeptLine(b, [c] + [blank], [c]);
    KeptLine(a, [b] + ([c] + [blank]), [b, c]);
    assert Trim(blank) == blank;
    KeptCons(blank, [a] + ([b] + ([c] + [blank])));
  }

  lemma KeptCons(a: string, rest: seq<string>)
    ensures KeptLines([a] + rest) == (if |Trim(a)| == 0 then [] else [Trim(a)]) + KeptLines(rest)
  {
    assert ([a] + rest)[1..] == rest;
  }

  lemma KeptLine(a: string, rest: seq<string>, kept: seq<string>)
    requires |a| > 0 && Trim(a) == a && KeptLines(rest) == kept
    ensures KeptLines([a] + rest) == [a] + kept
  {
    KeptCons(a, rest);
  }

  /** The `test_parse` maze is well formed, with its one start at (5, 1). */
  lemma SimplePicture(lines: seq<string>, wall: string, middle: string)
    requires wall == "#########" && middle == "#b.A.@.a#" && lines == [wall, middle, wall]
    ensures WellFormedPicture(lines) && CharAt(lines, Vec2(5, 1)) == '@' && InLines(lines, Vec2(5, 1))
  {
    SimpleRows(wall, middle);
    assert InLines(lines, Vec2(5, 1)) && CharAt(lines, Vec2(5, 1)) == '@';
    forall p | InLines(lines, p) && OnlyOnce(CharAt(lines, p))
      ensures p == Vec2(3, 1) || p == Vec2(5, 1)
    {
      assert p.y == 1;
    }
  }

  /** `test_parse`: the start of the small maze is at (5, 1). */
  lemma SimpleStart(input: string)
    requires input == "\n#########\n#b.A.@.a#\n#########\n"
    ensures ParseMaze(input).Some? && ParseMaze(input).value.start == Vec2(5, 1)
  {
    var wall, middle := "#########", "#b.A.@.a#";
    SimpleLines(input, wall, middle);
    SimplePicture(Lines(input), wall, middle);
    ParseSucceeds(input);
    ParseCells(input);
  }

  // ---------------------------------------------------------------------
  // Collecting a key
  // ---------------------------------------------------------------------

  /**
   * `clone_with_door_removed`: a copy of the maze starting at the key, with
   * the key's cell and its door (if it has one) open and the door forgotten,
   * and one key fewer to collect.
   */
  function CloneWithDoorRemoved(m: Maze, key: char, keyLocation: Vec2): (r: Maze)
    requires IsLower(key) && m.keyCount >= 1 && InGrid(m.cells, keyLocation)
    requires Upper(key) in m.doorLocations ==> InGrid(m.cells, m.doorLocations[Upper(key)])
  {
    var door := Upper(key);
    var doorLocations := m.doorLocations - {door};
    var cells := SetCell(m.cells, keyLocation, Open);
    SetCellFacts(m.cells, keyLocation, Open);
    var cells' := if door in m.doorLocations then SetCell(cells, m.doorLocations[door], Open) else cells;
    Maze(keyLocation, cells', doorLocations, m.keyCount - 1)
  }

  /** The copy changes only what `clone_with_door_removed` says: the start, two cells, the door map and the count. */
  lemma CloneMeaning(m: Maze, key: char, keyLocation: Vec2)
    requires IsLower(key) && m.keyCount >= 1 && InGrid(m.cells, keyLocation)
    requires Upper(key) in m.doorLocations ==> InGrid(m.cells, m.doorLocations[Upper(key)])
    ensures var r := CloneWithDoorRemoved(m, key, keyLocation);
      r.start == keyLocation && r.keyCount == m.keyCount - 1
      && r.doorLocations == m.doorLocations - {Upper(key)}
      && (forall p :: InGrid(r.cells, p) <==> InGrid(m.cells, p))
      && CellAt(r.cells, keyLocation) == Open
      && (Upper(key) in m.doorLocations ==> CellAt(r.cells, m.doorLocations[Upper(key)]) == Open)
      && (forall p ::
            (InGrid(m.cells, p) && p != keyLocation
             && (Upper(key) in m.doorLocations ==> p != m.doorLocations[Upper(key)])) ==>
            CellAt(r.cells, p) == CellAt(m.cells, p))
  {
    var door := Upper(key);
    var cells := SetCell(m.cells, keyLocation, Open);
    SetCellFacts(m.cells, keyLocation, Open);
    if door in m.doorLocations {
      SetCellFacts(cells, m.doorLocations[door], Open);
    }
  }

  /** Collecting a key from a valid maze gives a valid maze. */
  lemma CloneValid(m: Maze, keyLocation: Vec2)
    requires Valid(m) && InGrid(m.cells, keyLocation) && CellAt(m.cells, keyLocation).Key?
    ensures var key := CellAt(m.cells, keyLocation).key;
      IsLower(key) && m.keyCount >= 1
      && (Upper(key) in m.doorLocations ==> InGrid(m.cells, m.doorLocations[Upper(key)]))
      && Valid(CloneWithDoorRemoved(m, key, keyLocation))
  {
    var key := CellAt(m.cells, keyLocation).key;
    var door := Upper(key);
    var cells := SetCell(m.cells, keyLocation, Open);
    KeysInSet(m.cells, keyLocation, Open);
    SetCellFacts(m.cells, keyLocation, Open);
    if door in m.doorLocations {
      var d := m.doorLocations[door];
      assert CellAt(cells, d) == Door;
      KeysInSet(cells, d, Open);
      SetCellFacts(cells, d, Open);
    }
    CloneMeaning(m, key, keyLocation);
    var r := CloneWithDoorRemoved(m, key, keyLocation);
    forall c | c in r.doorLocations
      ensures InGrid(r.cells, r.doorLocations[c]) && CellAt(r.cells, r.doorLocations[c]) == Door
    {
      assert r.doorLocations[c] == m.doorLocations[c];
      assert m.doorLocations[c] != keyLocation;
    }
  }

  // ---------------------------------------------------------------------
  // Routes
  // ---------------------------------------------------------------------

  predicate Adjacent(a: Vec2, b: Vec2)
  {
    Abs(a.x - b.x) + Abs(a.y - b.y) == 1
  }

  /** A walk from the start through open floor, one step at a time; its last place may be anywhere. */
  ghost predicate Walk(m: Maze, path: seq<Vec2>)
  {
    |path| >= 1 && path[0] == m.start
    && forall i :: 0 <= i < |path| - 1 ==>
         InGrid(m.cells, path[i]) && CellAt(m.cells, path[i]) == Open && Adjacent(path[i], path[i + 1])
  }

  function Last(path: seq<Vec2>): Vec2
    requires |path| > 0
  {
    path[|path| - 1]
  }

  /**
   * A route that collects every key: each leg walks to a key, which is then
   * collected, and the maze after the last leg holds no key.
   */
  ghost predicate Tour(m: Maze, legs: seq<seq<Vec2>>)
    decreases |legs|
  {
    if |legs| == 0 then m.keyCount == 0
    else
      Valid(m) && m.keyCount >= 1 && Walk(m, legs[0])
      && InGrid(m.cells, Last(legs[0])) && CellAt(m.cells, Last(legs[0])).Key?
      && (CloneValid(m, Last(legs[0]));
          Tour(CloneWithDoorRemoved(m, CellAt(m.cells, Last(legs[0])).key, Last(legs[0])), legs[1..]))
  }

  function Steps(leg: seq<Vec2>): nat
  {
    if |leg| == 0 then 0 else |leg| - 1
  }

  /** The number of steps of a route. */
  function Total(legs: seq<seq<Vec2>>): nat
  {
    if |legs| == 0 then 0 else Steps(legs[0]) + Total(legs[1..])
  }

  /** A route has one leg per key, and each leg takes at least one step. */
  lemma {:induction false} TourBound(m: Maze, legs: seq<seq<Vec2>>)
    requires Tour(m, legs)
    ensures |legs| == m.keyCount && Total(legs) >= |legs|
    decreases |legs|
  {
    if |legs| > 0 {
      var end := Last(legs[0]);
      CloneValid(m, end);
      assert |legs[0]| >= 2;
      TourBound(CloneWithDoorRemoved(m, CellAt(m.cells, end).key, end), legs[1..]);
    }
  }

  // ---------------------------------------------------------------------
  // The search
  // ---------------------------------------------------------------------

  /** The four unit moves. */
  const Moves: seq<Vec2> := [Vec2(0, -1), Vec2(1, 0), Vec2(0, 1), Vec2(-1, 0)]

  /** What each entry of the queue stands for: a walk of its distance to its place. */
  ghost predicate Queued(m: Maze, toVisit: seq<(Vec2, nat)>, paths: seq<seq<Vec2>>)
  {
    |paths| == |toVisit|
    && forall i :: 0 <= i < |toVisit| ==>
         Walk(m, paths[i]) && |paths[i]| == toVisit[i].1 + 1 && Last(paths[i]) == toVisit[i].0
  }

  lemma QueuedPop(m: Maze, toVisit: seq<(Vec2, nat)>, paths: seq<seq<Vec2>>)
    requires Queued(m, toVisit, paths) && |toVisit| > 0
    ensures Queued(m, toVisit[1..], paths[1..])
    ensures Walk(m, paths[0]) && |paths[0]| == toVisit[0].1 + 1 && Last(paths[0]) == toVisit[0].0
  {
    assert forall i :: 0 <= i < |toVisit| - 1 ==> toVisit[1..][i] == toVisit[i + 1] && paths[1..][i] == paths[i + 1];
  }

  /** A walk to an open cell, one step further, joins the end of the queue. */
  lemma QueuedPush(m: Maze, toVisit: seq<(Vec2, nat)>, paths: seq<seq<Vec2>>, path: seq<Vec2>, d: Vec2)
    requires Queued(m, toVisit, paths) && Walk(m, path)
    requires InGrid(m.cells, Last(path)) && CellAt(m.cells, Last(path)) == Open && d in Moves
    ensures var next := Plus(Last(path), d);
      Queued(m, toVisit + [(next, |path|)], paths + [path + [next]])
  {
    var next := Plus(Last(path), d);
    var path' := path + [next];
    assert Adjacent(Last(path), next);
    forall i | 0 <= i < |path'| - 1
      ensures InGrid(m.cells, path'[i]) && CellAt(m.cells, path'[i]) == Open && Adjacent(path'[i], path'[i + 1])
    {
      if i < |path| - 1 {
        assert path'[i] == path[i] && path'[i + 1] == path[i + 1];
      }
    }
    var q, ps := toVisit + [(next, |path|)], paths + [path'];
    forall i | 0 <= i < |q|
      ensures Walk(m, ps[i]) && |ps[i]| == q[i].1 + 1 && Last(ps[i]) == q[i].0
    {
      if i < |toVisit| {
        assert q[i] == toVisit[i] && ps[i] == paths[i];
      }
    }
  }

  /** A walk to a key followed by a route from the maze with that key collected is a route. */
  lemma TourCons(m: Maze, path: seq<Vec2>, sublegs: seq<seq<Vec2>>)
    requires Valid(m) && m.keyCount >= 1 && Walk(m, path)
    requires InGrid(m.cells, Last(path)) && CellAt(m.cells, Last(path)).Key?
    requires Tour(CloneWithDoorRemoved(m, CellAt(m.cells, Last(path)).key, Last(path)), sublegs)
    ensures Tour(m, [path] + sublegs)
    ensures Total([path] + sublegs) == |path| - 1 + Total(sublegs)
  {
    var legs := [path] + sublegs;
    assert legs[0] == path && legs[1..] == sublegs;
    CloneValid(m, Last(path));
  }

  function AllCells(cells: seq<seq<Cell>>): set<Vec2>
  {
    set y, x | 0 <= y < |cells| && 0 <= x < |cells[y]| :: Vec2(x, y)
  }

  /** Marking a new cell of the grid as seen leaves fewer unseen cells. */
  lemma SeenGrows(cells: seq<seq<Cell>>, seen: set<Vec2>, p: Vec2)
    requires InGrid(cells, p) && p !in seen
    ensures |AllCells(cells) - (seen + {p})| < |AllCells(cells) - seen|
  {
    assert Vec2(p.x, p.y) == p;
    assert p in AllCells(cells) - seen;
    assert AllCells(cells) - (seen + {p}) == (AllCells(cells) - seen) - {p};
  }

  /** The loop over the four directions: each neighbour of an open cell joins the queue one step further. */
  method EnqueueNeighbours(m: Maze, toVisit: seq<(Vec2, nat)>, ghost paths: seq<seq<Vec2>>, pos: Vec2, distance: nat, ghost path: seq<Vec2>)
    returns (toVisit': seq<(Vec2, nat)>, ghost paths': seq<seq<Vec2>>)
    requires Queued(m, toVisit, paths) && Walk(m, path) && |path| == distance + 1 && Last(path) == pos
    requires InGrid(m.cells, pos) && CellAt(m.cells, pos) == Open
    ensures Queued(m, toVisit', paths')
    ensures toVisit' == toVisit + seq(|Moves|, i requires 0 <= i < |Moves| => (Plus(pos, Moves[i]), distance + 1))
  {
    toVisit', paths' := toVisit, paths;
    var i := 0;
    while i < |Moves|
      invariant 0 <= i <= |Moves| && Queued(m, toVisit', paths')
      invariant toVisit' == toVisit + seq(i, j requires 0 <= j < i => (Plus(pos, Moves[j]), distance + 1))
    {
      QueuedPush(m, toVisit', paths', path, Moves[i]);
      var next := Plus(pos, Moves[i]);
      toVisit' := toVisit' + [(next, distance + 1)];
      paths' := paths' + [path + [next]];
      i := i + 1;
    }
  }

  /**
   * `find_shortest_path_through_maze(moves_so_far)`: with no key left the
   * moves so far; otherwise the best over the keys the walk reaches. `None`
   * where the source panics (a read out of the grid, or no key reachable).
   */
  method ShortestPathFrom(m: Maze, movesSoFar: nat) returns (r: Option<nat>, ghost legs: seq<seq<Vec2>>)
    requires Valid(m)
    ensures m.keyCount == 0 ==> r == Some(movesSoFar)
    ensures r.Some? ==> Tour(m, legs) && r.value == movesSoFar + Total(legs)
    ensures r.Some? ==> r.value >= movesSoFar + m.keyCount
    decreases m.keyCount
  {
    legs := [];
    if m.keyCount == 0 {
      return Some(movesSoFar), legs;
    }
    var seen: set<Vec2> := {};
    var toVisit: seq<(Vec2, nat)> := [(m.start, 0)];
    ghost var paths: seq<seq<Vec2>> := [[m.start]];
    var best: Option<nat> := None;
    while |toVisit| > 0
      invariant Queued(m, toVisit, paths)
      invariant best.Some? ==> Tour(m, legs) && best.value == movesSoFar + Total(legs)
      decreases |AllCells(m.cells) - seen|, |toVisit|
    {
      QueuedPop(m, toVisit, paths);
      var (pos, distance) := toVisit[0];
      ghost var path := paths[0];
      toVisit, paths := toVisit[1..], paths[1..];
      if pos in seen {
        continue;
      }
      var cell := GetCell(m, pos);
      if cell.None? {
        return None, legs;
      }
      SeenGrows(m.cells, seen, pos);
      seen := seen + {pos};
      match cell.value {
        case Wall =>
        case Door =>
        case Open =>
          toVisit, paths := EnqueueNeighbours(m, toVisit, paths, pos, distance, path);
        case Key(key) =>
          CloneValid(m, pos);
          var maze := CloneWithDoorRemoved(m, key, pos);
          var score, sublegs := ShortestPathFrom(maze, movesSoFar + distance);
          if score.None? {
            return None, legs;
          }
          if best.None? || score.value < best.value {
            TourCons(m, path, sublegs);
            best := score;
            legs := [path] + sublegs;
          }
      }
    }
    if best.None? {
      return None, legs;
    }
    r := best;
    TourBound(m, legs);
  }

  /** `find_shortest_path_through_maze(&maze)`: the search from no moves. */
  method FindShortestPath(m: Maze) returns (r: Option<nat>, ghost legs: seq<seq<Vec2>>)
    requires Valid(m)
    ensures r.Some? ==> Tour(m, legs) && r.value == Total(legs) && r.value >= m.keyCount
  {
    r, legs := ShortestPathFrom(m, 0);
  }
}
