/**
 * Day 10 of 2019: monitoring station. The map is a grid of `.` (empty) and
 * `#` (asteroid). Seen from an asteroid, every other asteroid lies in a
 * direction, written as its offset reduced by the greatest common divisor of
 * its two components; the asteroids that can be detected are one per
 * distinct direction. The best site is the first asteroid, in row-major
 * order, that sees the most directions.
 */
module Day10 {
  import opened Common

  datatype ParseError = UnexpectedCharacter(c: char) | UnevenLineLength | NoLines

  /** `AsteroidMap`: `starfield[y][x]` is true where there is an asteroid. */
  datatype AsteroidMap = AsteroidMap(width: nat, height: nat, starfield: seq<seq<bool>>)

  type Direction = (int, int)

  /** `PlacementResult`: a site and the number of asteroids in each direction from it. */
  datatype PlacementResult = PlacementResult(x: nat, y: nat, asteroidsInDirection: map<Direction, nat>)

  datatype PlacementError = NoAsteroids

  // =====================================================================
  // Parsing
  // =====================================================================

  /** One line of the map: `.` is empty, `#` an asteroid, and the first other character is an error. */
  function ParseLine(line: string): (r: Result<seq<bool>, ParseError>)
    ensures r.Ok? ==> (
      && |r.value| == |line|
      && forall i :: 0 <= i < |line| ==> (line[i] == '#' || line[i] == '.') && (r.value[i] <==> line[i] == '#'))
    ensures r.Err? ==> (
      && r.error.UnexpectedCharacter?
      && exists i :: 0 <= i < |line| && line[i] == r.error.c && line[i] != '#' && line[i] != '.')
  {
    if |line| == 0 then Ok([])
    else if line[0] != '.' && line[0] != '#' then Err(UnexpectedCharacter(line[0]))
    else match ParseLine(line[1..])
      case Err(e) => Err(e)
      case Ok(rest) => Ok([line[0] == '#'] + rest)
  }

  /**
   * The loop of `parse` over the remaining lines, with the rows so far:
   * empty lines are skipped, and each row must be as long as the first.
   */
  function ParseLines(lines: seq<string>, rows: seq<seq<bool>>): Result<seq<seq<bool>>, ParseError>
  {
    if |lines| == 0 then Ok(rows)
    else if |lines[0]| == 0 then ParseLines(lines[1..], rows)
    else match ParseLine(lines[0])
      case Err(e) => Err(e)
      case Ok(row) =>
        if |rows| > 0 && |rows[0]| != |row| then Err(UnevenLineLength)
        else ParseLines(lines[1..], rows + [row])
  }

  /** `AsteroidMap::parse`: the lines between newlines, then `NoLines` if none was kept. */
  function ParseMap(input: string): Result<AsteroidMap, ParseError>
  {
    match ParseLines(Split(input, '\n'), [])
    case Err(e) => Err(e)
    case Ok(rows) =>
      if |rows| == 0 then Err(NoLines)
      else Ok(AsteroidMap(|rows[0]|, |rows|, rows))
  }

  /** Every row the loop keeps is as long as the first. */
  predicate Rectangular(rows: seq<seq<bool>>)
  {
    forall i :: 0 <= i < |rows| ==> |rows[i]| == |rows[0]|
  }

  lemma {:induction false} ParseLinesRectangular(lines: seq<string>, rows: seq<seq<bool>>)
    requires Rectangular(rows)
    ensures ParseLines(lines, rows).Ok? ==>
      Rectangular(ParseLines(lines, rows).value) && |ParseLines(lines, rows).value| >= |rows|
      && ParseLines(lines, rows).value[..|rows|] == rows
    decreases |lines|
  {
    if |lines| > 0 {
      if |lines[0]| == 0 {
        ParseLinesRectangular(lines[1..], rows);
      } else if ParseLine(lines[0]).Ok? {
        var row := ParseLine(lines[0]).value;
        if !(|rows| > 0 && |rows[0]| != |row|) {
          ParseLinesRectangular(lines[1..], rows + [row]);
          var r := ParseLines(lines, rows);
          if r.Ok? {
            assert r.value[..|rows|] == r.value[..|rows| + 1][..|rows|];
          }
        }
      }
    }
  }

  /** A parsed map has at least one row, its height is the row count and every row has its width. */
  lemma ParseMapMeaning(input: string)
    ensures var r := ParseMap(input);
      r.Ok? ==> (
        && r.value.height == |r.value.starfield| > 0
        && forall i :: 0 <= i < r.value.height ==> |r.value.starfield[i]| == r.value.width)
  {
    ParseLinesRectangular(Split(input, '\n'), []);
  }

  /** The rows parsed so far in front of the parse of the rest of a line. */
  function Prefixed(prefix: seq<bool>, r: Result<seq<bool>, ParseError>): Result<seq<bool>, ParseError>
  {
    match r
    case Err(e) => Err(e)
    case Ok(rest) => Ok(prefix + rest)
  }

  lemma PrefixedAppend(a: seq<bool>, b: seq<bool>, r: Result<seq<bool>, ParseError>)
    ensures Prefixed(a, Prefixed(b, r)) == Prefixed(a + b, r)
  {
    if r.Ok? {
      assert a + (b + r.value) == (a + b) + r.value;
    }
  }

  /** `parse`, with a loop over the lines and one over each line's characters. */
  method Parse(input: string) returns (r: Result<AsteroidMap, ParseError>)
    ensures r == ParseMap(input)
  {
    var lines := Split(input, '\n');
    var rows: seq<seq<bool>> := [];
    var i := 0;
    while i < |lines|
      invariant 0 <= i <= |lines|
      invariant ParseLines(lines, []) == ParseLines(lines[i..], rows)
    {
      var line := lines[i];
      assert lines[i..][0] == line && lines[i..][1..] == lines[i + 1..];
      if |line| > 0 {
        var mapLine: seq<bool> := [];
        var j := 0;
        assert line[j..] == line;
        assert ParseLine(line).Ok? ==> [] + ParseLine(line).value == ParseLine(line).value;
        while j < |line|
          invariant 0 <= j <= |line|
          invariant ParseLine(line) == Prefixed(mapLine, ParseLine(line[j..]))
        {
          var c := line[j];
          assert line[j..][0] == c && line[j..][1..] == line[j + 1..];
          PrefixedAppend(mapLine, [c == '#'], ParseLine(line[j + 1..]));
          if c == '.' {
            mapLine := mapLine + [false];
          } else if c == '#' {
            mapLine := mapLine + [true];
          } else {
            assert ParseLine(line) == Err(UnexpectedCharacter(c));
            return Err(UnexpectedCharacter(c));
          }
          j := j + 1;
        }
        assert line[j..] == [];
        assert mapLine + [] == mapLine;
        if |rows| > 0 && |rows[0]| != |mapLine| {
          return Err(UnevenLineLength);
        }
        rows := rows + [mapLine];
      }
      i := i + 1;
    }
    if |rows| == 0 {
      return Err(NoLines);
    }
    r := Ok(AsteroidMap(|rows[0]|, |rows|, rows));
  }

  lemma SplitExample()
    ensures Split("\n.#.\n...\n", '\n') == ["", ".#.", "...", ""]
  {
    var parts := ["", ".#.", "...", ""];
    assert Join(parts, '\n') == "\n.#.\n...\n" by {
      assert Join(parts[3..], '\n') == "";
      assert Join(parts[2..], '\n') == "..." + "\n" + "";
      assert Join(parts[1..], '\n') == ".#." + "\n" + "...\n";
    }
    SplitJoin(parts, '\n', {'\n'});
  }

  lemma ParseLineExamples()
    ensures ParseLine(".#.") == Ok([false, true, false])
    ensures ParseLine("...") == Ok([false, false, false])
  {
    assert ParseLine(".") == Ok([false]) by {
      assert "."[1..] == "" && [false] + [] == [false];
    }
    assert ParseLine("#.") == Ok([true, false]) by {
      assert "#."[1..] == "." && [true] + [false] == [true, false];
    }
    assert ParseLine("..") == Ok([false, false]) by {
      assert ".."[1..] == "." && [false] + [false] == [false, false];
    }
    assert ".#."[1..] == "#." && [false] + [true, false] == [false, true, false];
    assert "..."[1..] == ".." && [false] + [false, false] == [false, false, false];
  }

  /** The test map `.#.` over `...`, between newlines, is 3 wide and 2 high. */
  lemma ParseExample()
    ensures ParseMap("\n.#.\n...\n") == Ok(AsteroidMap(3, 2, [[false, true, false], [false, false, false]]))
  {
    SplitExample();
    ParseLinesExample();
  }

  lemma ParseLinesExample()
    ensures ParseLines(["", ".#.", "...", ""], []) == Ok([[false, true, false], [false, false, false]])
  {
    ParseLineExamples();
    var parts := ["", ".#.", "...", ""];
    var row1, row2 := [false, true, false], [false, false, false];
    assert ParseLines([""], [row1, row2]) == Ok([row1, row2]) by {
      assert [""][1..] == [];
    }
    assert ParseLines(["...", ""], [row1]) == Ok([row1, row2]) by {
      assert ["...", ""][1..] == [""];
      assert [row1] + [row2] == [row1, row2];
    }
    assert ParseLines([".#.", "...", ""], []) == Ok([row1, row2]) by {
      assert [".#.", "...", ""][1..] == ["...", ""];
      assert [] + [row1] == [row1];
    }
    assert parts[1..] == [".#.", "...", ""];
  }

  // =====================================================================
  // Directions
  // =====================================================================

  /** The greatest common divisor, by repeated subtraction. */
  function Gcd(a: nat, b: nat): nat
    decreases a + b
  {
    if a == 0 then b
    else if b == 0 then a
    else if a >= b then Gcd(a - b, b)
    else Gcd(a, b - a)
  }

  /**
   * The fraction `a / b` in lowest terms, as `Rational32::new` keeps it: the
   * subtraction steps of `Gcd`, carrying the two reduced parts.
   */
  function Reduce(a: nat, b: nat): (nat, nat)
    requires a > 0 && b > 0
    decreases a + b
  {
    if a == b then (1, 1)
    else if a > b then (var (p, q) := Reduce(a - b, b); (p + q, q))
    else (var (p, q) := Reduce(a, b - a); (p, p + q))
  }

  lemma Distribute(g: nat, p: nat, q: nat)
    ensures g * (p + q) == g * p + g * q
  {
  }

  /** The reduced parts are positive, coprime, and the gcd times them gives the numbers back. */
  lemma {:induction false} ReduceMeaning(a: nat, b: nat)
    requires a > 0 && b > 0
    ensures var (p, q) := Reduce(a, b);
      p > 0 && q > 0 && a == Gcd(a, b) * p && b == Gcd(a, b) * q && Gcd(p, q) == 1
    decreases a + b
  {
    if a == b {
      assert Gcd(a, b) == Gcd(0, b);
    } else if a > b {
      ReduceMeaning(a - b, b);
      var (p, q) := Reduce(a - b, b);
      Distribute(Gcd(a, b), p, q);
      assert Gcd(p + q, q) == Gcd(p, q);
    } else {
      ReduceMeaning(a, b - a);
      var (p, q) := Reduce(a, b - a);
      Distribute(Gcd(a, b), p, q);
      assert Gcd(p, p + q) == Gcd(p, q);
    }
  }

  /** Scaling both numbers leaves the reduced fraction unchanged. */
  lemma {:induction false} ReduceScale(c: nat, a: nat, b: nat)
    requires c > 0 && a > 0 && b > 0
    ensures c * a > 0 && c * b > 0 && Reduce(c * a, c * b) == Reduce(a, b)
    decreases a + b
  {
    MulAtLeast(c, a);
    MulAtLeast(c, b);
    if a > b {
      assert c * a == c * (a - b) + c * b by {
        Distribute(c, a - b, b);
      }
      MulAtLeast(c, a - b);
      ReduceScale(c, a - b, b);
    } else if a < b {
      assert c * b == c * a + c * (b - a) by {
        Distribute(c, a, b - a);
      }
      MulAtLeast(c, b - a);
      ReduceScale(c, a, b - a);
    }
  }

  /** `get_delta`'s sign handling: a reduced magnitude with the sign of the offset. */
  function Signed(d: int, m: nat): int
  {
    if d < 0 then -(m as int) else m
  }

  /**
   * `get_delta`: no direction for the site itself; fixed keys for the four
   * axis directions (note their signs: straight up, towards smaller `y`, is
   * `(0, 1)`); otherwise the offset reduced to lowest terms, keeping the
   * sign of each component.
   */
  function GetDelta(xOrigin: nat, yOrigin: nat, x: nat, y: nat): Option<Direction>
  {
    if xOrigin == x && yOrigin == y then None
    else if xOrigin == x then (if yOrigin > y then Some((0, 1)) else Some((0, -1)))
    else if yOrigin == y then (if xOrigin < x then Some((-1, 0)) else Some((1, 0)))
    else
      var dx := x - xOrigin;
      var dy := y - yOrigin;
      var (p, q) := Reduce(Abs(dx), Abs(dy));
      Some((Signed(dx, p), Signed(dy, q)))
  }

  /**
   * What the key says: none exactly for the site itself; an axis key for the
   * four axis directions; otherwise two nonzero coprime components, with the
   * offset's signs, that the offset is the gcd times.
   */
  lemma GetDeltaMeaning(xOrigin: nat, yOrigin: nat, x: nat, y: nat)
    ensures GetDelta(xOrigin, yOrigin, x, y).None? <==> xOrigin == x && yOrigin == y
    ensures xOrigin == x && yOrigin > y ==> GetDelta(xOrigin, yOrigin, x, y) == Some((0, 1))
    ensures xOrigin == x && yOrigin < y ==> GetDelta(xOrigin, yOrigin, x, y) == Some((0, -1))
    ensures yOrigin == y && xOrigin < x ==> GetDelta(xOrigin, yOrigin, x, y) == Some((-1, 0))
    ensures yOrigin == y && xOrigin > x ==> GetDelta(xOrigin, yOrigin, x, y) == Some((1, 0))
    ensures xOrigin != x && yOrigin != y ==>
      var (kx, ky) := GetDelta(xOrigin, yOrigin, x, y).value;
      var g := Gcd(Abs(x - xOrigin), Abs(y - yOrigin));
      kx != 0 && ky != 0 && (kx < 0 <==> x < xOrigin) && (ky < 0 <==> y < yOrigin)
      && x - xOrigin == kx * g && y - yOrigin == ky * g && Gcd(Abs(kx), Abs(ky)) == 1
  {
    if xOrigin != x && yOrigin != y {
      var dx := x - xOrigin;
      var dy := y - yOrigin;
      ReduceMeaning(Abs(dx), Abs(dy));
      var g := Gcd(Abs(dx), Abs(dy));
      var (p, q) := Reduce(Abs(dx), Abs(dy));
      SignedTimes(dx, g, p);
      SignedTimes(dy, g, q);
    }
  }

  lemma SignedTimes(d: int, g: nat, m: nat)
    requires Abs(d) == g * m
    ensures d == Signed(d, m) * g && Abs(Signed(d, m)) == m
  {
    if d < 0 {
      assert Signed(d, m) * g == -(g * m);
    }
  }

  /** Scaling by a positive number keeps zero, the sign, and scales the magnitude. */
  lemma SignScale(c: nat, d: int)
    requires c > 0
    ensures (c * d == 0 <==> d == 0) && (c * d < 0 <==> d < 0) && Abs(c * d) == c * Abs(d)
  {
    if d > 0 {
      MulAtLeast(c, d);
    } else if d < 0 {
      assert c * d == -(c * -d);
      MulAtLeast(c, -d);
    }
  }

  /** Points further along the same ray from the site get the same key. */
  lemma GetDeltaAlongRay(xOrigin: nat, yOrigin: nat, x: nat, y: nat, c: nat)
    requires c > 0 && xOrigin + c * (x - xOrigin) >= 0 && yOrigin + c * (y - yOrigin) >= 0
    ensures GetDelta(xOrigin, yOrigin, xOrigin + c * (x - xOrigin), yOrigin + c * (y - yOrigin))
      == GetDelta(xOrigin, yOrigin, x, y)
  {
    var dx := x - xOrigin;
    var dy := y - yOrigin;
    SignScale(c, dx);
    SignScale(c, dy);
    if dx != 0 && dy != 0 {
      ReduceScale(c, Abs(dx), Abs(dy));
    }
  }

  // =====================================================================
  // Counting what a site sees
  // =====================================================================

  /** The asteroids of row `y` among its first `|row|` cells, left to right. */
  function RowAsteroids(row: seq<bool>, y: nat): seq<(nat, nat)>
  {
    if |row| == 0 then []
    else RowAsteroids(row[..|row| - 1], y) + (if row[|row| - 1] then [(|row| - 1, y)] else [])
  }

  /** The asteroids of the field, in the row-major order of the source's loops. */
  function Asteroids(field: seq<seq<bool>>): seq<(nat, nat)>
  {
    if |field| == 0 then []
    else Asteroids(field[..|field| - 1]) + RowAsteroids(field[|field| - 1], |field| - 1)
  }

  lemma {:induction false} RowAsteroidsMeaning(row: seq<bool>, y: nat)
    ensures forall p :: p in RowAsteroids(row, y) <==> p.1 == y && p.0 < |row| && row[p.0]
  {
    if |row| > 0 {
      RowAsteroidsMeaning(row[..|row| - 1], y);
    }
  }

  lemma {:induction false} AsteroidsMeaning(field: seq<seq<bool>>)
    ensures forall p :: p in Asteroids(field) <==> p.1 < |field| && p.0 < |field[p.1]| && field[p.1][p.0]
  {
    if |field| > 0 {
      AsteroidsMeaning(field[..|field| - 1]);
      RowAsteroidsMeaning(field[|field| - 1], |field| - 1);
    }
  }

  /** The directions from the site to the listed points, leaving out the site itself. */
  function Directions(x0: nat, y0: nat, ps: seq<(nat, nat)>): seq<Direction>
  {
    if |ps| == 0 then []
    else
      var last := ps[|ps| - 1];
      Directions(x0, y0, ps[..|ps| - 1])
        + (match GetDelta(x0, y0, last.0, last.1) case None => [] case Some(d) => [d])
  }

  /** One more asteroid in direction `k`: its count goes up by one, from nothing to 1 if it was absent. */
  function Bump(m: map<Direction, nat>, k: Direction): map<Direction, nat>
  {
    if k in m then m[k := m[k] + 1] else m[k := 1]
  }

  /** The map the source builds: each key counted once more per occurrence. */
  function Tally(ks: seq<Direction>): map<Direction, nat>
  {
    if |ks| == 0 then map[]
    else Bump(Tally(ks[..|ks| - 1]), ks[|ks| - 1])
  }

  /** The tally has a key for each distinct direction, and its count is how often it occurs. */
  lemma {:induction false} TallyMeaning(ks: seq<Direction>)
    ensures forall k :: k in Tally(ks) <==> k in ks
    ensures forall k :: k in Tally(ks) ==> Tally(ks)[k] == multiset(ks)[k]
  {
    if |ks| > 0 {
      var init := ks[..|ks| - 1];
      TallyMeaning(init);
      assert ks == init + [ks[|ks| - 1]];
    }
  }

  /** `count_asteroids_in_line_of_sight`, as a value. */
  function Placement(field: seq<seq<bool>>, x0: nat, y0: nat): PlacementResult
  {
    PlacementResult(x0, y0, Tally(Directions(x0, y0, Asteroids(field))))
  }

  /** `num_detectable`: the number of distinct directions. */
  function NumDetectable(r: PlacementResult): nat
  {
    |r.asteroidsInDirection|
  }

  /**
   * A site's map has a key exactly for the direction of each other asteroid,
   * counting the asteroids in it; so it detects one asteroid per direction.
   */
  lemma PlacementMeaning(field: seq<seq<bool>>, x0: nat, y0: nat)
    ensures var m := Placement(field, x0, y0).asteroidsInDirection;
      forall d :: d in m <==> d in Directions(x0, y0, Asteroids(field))
    ensures var m := Placement(field, x0, y0).asteroidsInDirection;
      forall d :: d in m ==> m[d] == multiset(Directions(x0, y0, Asteroids(field)))[d]
    ensures NumDetectable(Placement(field, x0, y0)) == |set d | d in Directions(x0, y0, Asteroids(field))|
  {
    var ks := Directions(x0, y0, Asteroids(field));
    TallyMeaning(ks);
    assert Tally(ks).Keys == set d | d in ks;
  }

  /** Every asteroid other than the site contributes its direction. */
  lemma {:induction false} DirectionsMeaning(x0: nat, y0: nat, ps: seq<(nat, nat)>)
    ensures forall p :: p in ps && p != (x0, y0) ==> GetDelta(x0, y0, p.0, p.1).value in Directions(x0, y0, ps)
    ensures forall d :: d in Directions(x0, y0, ps) ==> exists p :: p in ps && p != (x0, y0) && GetDelta(x0, y0, p.0, p.1) == Some(d)
  {
    if |ps| > 0 {
      var init := ps[..|ps| - 1];
      DirectionsMeaning(x0, y0, init);
      assert ps == init + [ps[|ps| - 1]];
      forall p | p in ps && p != (x0, y0) ensures GetDelta(x0, y0, p.0, p.1).value in Directions(x0, y0, ps) {
        GetDeltaMeaning(x0, y0, p.0, p.1);
      }
      forall d | d in Directions(x0, y0, ps)
        ensures exists p :: p in ps && p != (x0, y0) && GetDelta(x0, y0, p.0, p.1) == Some(d)
      {
        if d !in Directions(x0, y0, init) {
          var last := ps[|ps| - 1];
          GetDeltaMeaning(x0, y0, last.0, last.1);
          assert last in ps && last != (x0, y0) && GetDelta(x0, y0, last.0, last.1) == Some(d);
        }
      }
    }
  }

  lemma DirectionsStep(x0: nat, y0: nat, ps: seq<(nat, nat)>, p: (nat, nat))
    ensures Directions(x0, y0, ps + [p]) ==
      Directions(x0, y0, ps) + (match GetDelta(x0, y0, p.0, p.1) case None => [] case Some(d) => [d])
  {
    assert (ps + [p])[..|ps|] == ps;
  }

  /** One more asteroid adds one to the count of its direction, if it has one. */
  lemma CountStep(x0: nat, y0: nat, ps: seq<(nat, nat)>, p: (nat, nat))
    ensures Tally(Directions(x0, y0, ps + [p])) == match GetDelta(x0, y0, p.0, p.1)
        case None => Tally(Directions(x0, y0, ps))
        case Some(d) => Bump(Tally(Directions(x0, y0, ps)), d)
  {
    DirectionsStep(x0, y0, ps, p);
    var ks := Directions(x0, y0, ps);
    match GetDelta(x0, y0, p.0, p.1)
    case None =>
      assert ks + [] == ks;
    case Some(d) =>
      assert (ks + [d])[..|ks|] == ks;
  }

  lemma RowStep(line: seq<bool>, y: nat, x: nat, seen: seq<(nat, nat)>)
    requires x < |line|
    ensures seen + RowAsteroids(line[..x + 1], y)
      == if line[x] then seen + RowAsteroids(line[..x], y) + [(x, y)] else seen + RowAsteroids(line[..x], y)
  {
    assert line[..x + 1][..x] == line[..x];
    var r := RowAsteroids(line[..x], y);
    assert seen + (r + []) == seen + r;
    assert seen + (r + [(x, y)]) == seen + r + [(x, y)];
  }

  lemma AsteroidsRow(field: seq<seq<bool>>, y: nat)
    requires y < |field|
    ensures Asteroids(field[..y + 1]) == Asteroids(field[..y]) + RowAsteroids(field[y], y)
  {
    assert field[..y + 1][..y] == field[..y];
  }

  /** `count_asteroids_in_line_of_sight`: the two loops over the field, counting into a map. */
  method CountAsteroidsInLineOfSight(field: seq<seq<bool>>, xOrigin: nat, yOrigin: nat) returns (r: PlacementResult)
    ensures r == Placement(field, xOrigin, yOrigin)
  {
    var asteroids: map<Direction, nat> := map[];
    var y := 0;
    while y < |field|
      invariant 0 <= y <= |field|
      invariant asteroids == Tally(Directions(xOrigin, yOrigin, Asteroids(field[..y])))
    {
      asteroids := CountRow(field[y], y, xOrigin, yOrigin, asteroids, Asteroids(field[..y]));
      AsteroidsRow(field, y);
      y := y + 1;
    }
    assert field[..y] == field;
    r := PlacementResult(xOrigin, yOrigin, asteroids);
  }

  /** The inner loop of `count_asteroids_in_line_of_sight`, over row `y`. */
  method CountRow(line: seq<bool>, y: nat, xOrigin: nat, yOrigin: nat, counts: map<Direction, nat>, ghost seen: seq<(nat, nat)>)
    returns (asteroids: map<Direction, nat>)
    requires counts == Tally(Directions(xOrigin, yOrigin, seen))
    ensures asteroids == Tally(Directions(xOrigin, yOrigin, seen + RowAsteroids(line, y)))
  {
    asteroids := counts;
    var x := 0;
    assert seen + RowAsteroids(line[..0], y) == seen;
    while x < |line|
      invariant 0 <= x <= |line|
      invariant asteroids == Tally(Directions(xOrigin, yOrigin, seen + RowAsteroids(line[..x], y)))
    {
      ghost var sofar := seen + RowAsteroids(line[..x], y);
      RowStep(line, y, x, seen);
      if line[x] {
        CountStep(xOrigin, yOrigin, sofar, (x, y));
        var delta := GetDelta(xOrigin, yOrigin, x, y);
        if delta.Some? {
          var d := delta.value;
          if d in asteroids {
            asteroids := asteroids[d := asteroids[d] + 1];
          } else {
            asteroids := asteroids[d := 1];
          }
        }
      }
      x := x + 1;
    }
    assert line[..x] == line;
  }

  // =====================================================================
  // The best site
  // =====================================================================

  /** The placement of each listed site, in order. */
  function Placements(field: seq<seq<bool>>, sites: seq<(nat, nat)>): (r: seq<PlacementResult>)
    ensures |r| == |sites|
  {
    if |sites| == 0 then []
    else Placements(field, sites[..|sites| - 1]) + [Placement(field, sites[|sites| - 1].0, sites[|sites| - 1].1)]
  }

  lemma {:induction false} PlacementsMeaning(field: seq<seq<bool>>, sites: seq<(nat, nat)>)
    ensures forall i :: 0 <= i < |sites| ==> Placements(field, sites)[i] == Placement(field, sites[i].0, sites[i].1)
  {
    if |sites| > 0 {
      PlacementsMeaning(field, sites[..|sites| - 1]);
    }
  }

  /** The selection of `get_num_detectable`: a later candidate wins only with strictly more. */
  function Best(candidates: seq<PlacementResult>): Option<PlacementResult>
  {
    if |candidates| == 0 then None
    else
      var best := Best(candidates[..|candidates| - 1]);
      var candidate := candidates[|candidates| - 1];
      if best.None? || NumDetectable(best.value) < NumDetectable(candidate) then Some(candidate) else best
  }

  /** Candidate `k` detects the most, and every earlier one detects strictly fewer. */
  predicate FirstBest(candidates: seq<PlacementResult>, k: nat)
  {
    k < |candidates|
    && (forall j :: 0 <= j < |candidates| ==> NumDetectable(candidates[j]) <= NumDetectable(candidates[k]))
    && (forall j :: 0 <= j < k ==> NumDetectable(candidates[j]) < NumDetectable(candidates[k]))
  }

  /** There is no answer only without candidates; otherwise it is the first that detects the most. */
  lemma {:induction false} BestMeaning(candidates: seq<PlacementResult>) returns (k: nat)
    ensures Best(candidates).None? <==> |candidates| == 0
    ensures |candidates| > 0 ==> FirstBest(candidates, k) && Best(candidates) == Some(candidates[k])
  {
    k := 0;
    if |candidates| > 0 {
      var init := candidates[..|candidates| - 1];
      if |init| > 0 {
        var j := BestMeaning(init);
        assert forall i :: 0 <= i < |init| ==> candidates[i] == init[i];
        if NumDetectable(Best(init).value) < NumDetectable(candidates[|candidates| - 1]) {
          k := |candidates| - 1;
        } else {
          k := j;
        }
      }
    }
  }

  lemma BestStep(candidates: seq<PlacementResult>, c: PlacementResult)
    ensures Best(candidates + [c]) ==
      if Best(candidates).None? || NumDetectable(Best(candidates).value) < NumDetectable(c)
      then Some(c) else Best(candidates)
  {
    assert (candidates + [c])[..|candidates|] == candidates;
  }

  /** `get_num_detectable` as a value. */
  function NumDetectableResult(m: AsteroidMap): Result<PlacementResult, PlacementError>
  {
    match Best(Placements(m.starfield, Asteroids(m.starfield)))
    case None => Err(NoAsteroids)
    case Some(r) => Ok(r)
  }

  /**
   * Without asteroids there is no site; otherwise the answer is the placement
   * of the first asteroid, in row-major order, from which the most
   * directions are seen.
   */
  lemma NumDetectableMeaning(m: AsteroidMap) returns (k: nat)
    ensures var sites := Asteroids(m.starfield);
      (NumDetectableResult(m).Err? <==> |sites| == 0)
      && (|sites| > 0 ==>
            && k < |sites|
            && NumDetectableResult(m) == Ok(Placement(m.starfield, sites[k].0, sites[k].1))
            && (forall j :: 0 <= j < |sites| ==>
                  NumDetectable(Placement(m.starfield, sites[j].0, sites[j].1))
                  <= NumDetectable(Placement(m.starfield, sites[k].0, sites[k].1)))
            && (forall j :: 0 <= j < k ==>
                  NumDetectable(Placement(m.starfield, sites[j].0, sites[j].1))
                  < NumDetectable(Placement(m.starfield, sites[k].0, sites[k].1))))
  {
    var sites := Asteroids(m.starfield);
    var cands := Placements(m.starfield, sites);
    k := BestMeaning(cands);
    PlacementsMeaning(m.starfield, sites);
  }

  /** `get_num_detectable`: the two loops over the field, keeping the first best site. */
  method GetNumDetectable(m: AsteroidMap) returns (r: Result<PlacementResult, PlacementError>)
    ensures r == NumDetectableResult(m)
  {
    var field := m.starfield;
    var ret: Option<PlacementResult> := None;
    var y := 0;
    while y < |field|
      invariant 0 <= y <= |field|
      invariant ret == Best(Placements(field, Asteroids(field[..y])))
    {
      ret := BestInRow(field, y, ret, Asteroids(field[..y]));
      AsteroidsRow(field, y);
      y := y + 1;
    }
    assert field[..y] == field;
    if ret.None? {
      return Err(NoAsteroids);
    }
    r := Ok(ret.value);
  }

  /** One more site: its placement joins the candidates. */
  lemma PlacementsStep(field: seq<seq<bool>>, sites: seq<(nat, nat)>, p: (nat, nat))
    ensures Placements(field, sites + [p]) == Placements(field, sites) + [Placement(field, p.0, p.1)]
  {
    assert (sites + [p])[..|sites|] == sites;
  }

  /** The inner loop of `get_num_detectable`, over row `y`. */
  method BestInRow(field: seq<seq<bool>>, y: nat, best: Option<PlacementResult>, ghost sites: seq<(nat, nat)>)
    returns (ret: Option<PlacementResult>)
    requires y < |field|
    requires best == Best(Placements(field, sites))
    ensures ret == Best(Placements(field, sites + RowAsteroids(field[y], y)))
  {
    ret := best;
    var line := field[y];
    var x := 0;
    assert sites + RowAsteroids(line[..0], y) == sites;
    while x < |line|
      invariant 0 <= x <= |line|
      invariant ret == Best(Placements(field, sites + RowAsteroids(line[..x], y)))
    {
      RowStep(line, y, x, sites);
      if line[x] {
        ret := Consider(field, x, y, ret, sites + RowAsteroids(line[..x], y));
      }
      x := x + 1;
    }
    assert line[..x] == line;
  }

  /** The body of `get_num_detectable`'s loops for an asteroid: it replaces the best so far only with strictly more. */
  method Consider(field: seq<seq<bool>>, x: nat, y: nat, best: Option<PlacementResult>, ghost sites: seq<(nat, nat)>)
    returns (ret: Option<PlacementResult>)
    requires best == Best(Placements(field, sites))
    ensures ret == Best(Placements(field, sites + [(x, y)]))
  {
    var candidate := CountAsteroidsInLineOfSight(field, x, y);
    PlacementsStep(field, sites, (x, y));
    BestStep(Placements(field, sites), candidate);
    ret := best;
    if ret.None? || NumDetectable(ret.value) < NumDetectable(candidate) {
      ret := Some(candidate);
    }
  }
}
