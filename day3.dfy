/**
 * Day 3 of 2019: two wires laid out as movement specs such as `R8,U5`, the
 * map from each cell a wire passes over to its step count, and the closest
 * crossing of two wires by Manhattan distance or by combined wire length.
 */
module Day3 {
  import opened Common

  datatype ParseError = LineParseError | NoLine

  /** A movement: how many unit steps, and the unit vector of each. */
  datatype Movement = Movement(amount: nat, delta: Vec2)

  predicate IsUnitAxis(d: Vec2)
  {
    Abs(d.x) + Abs(d.y) == 1
  }

  /** The step of each direction letter; `U` is towards positive `y`. */
  function DeltaOf(dir: char): (d: Option<Vec2>)
    ensures d.Some? ==> IsUnitAxis(d.value)
  {
    match dir
    case 'U' => Some(Vec2(0, 1))
    case 'D' => Some(Vec2(0, -1))
    case 'L' => Some(Vec2(-1, 0))
    case 'R' => Some(Vec2(1, 0))
    case _ => None
  }

  /**
   * `get_move_for_spec`: a direction letter, then a nonzero `u32`; a missing
   * or unknown letter, a missing or malformed count, and a zero count all fail.
   */
  function GetMoveForSpec(movement: string): (r: Result<Movement, ParseError>)
    ensures r.Ok? ==> 1 <= r.value.amount <= U32_MAX && IsUnitAxis(r.value.delta)
    ensures r.Ok? ==> |movement| >= 2 && DeltaOf(movement[0]) == Some(r.value.delta)
    ensures r.Ok? ==> |movement| >= 2 && ParseU32(movement[1..]) == Some(r.value.amount as int)
    ensures |movement| < 2 ==> r == Err(LineParseError)
    ensures r.Err? ==> r.error == LineParseError
  {
    if |movement| == 0 then Err(LineParseError)
    else match DeltaOf(movement[0])
      case None => Err(LineParseError)
      case Some(delta) =>
        if |movement| == 1 then Err(LineParseError)
        else match ParseU32(movement[1..])
          case None => Err(LineParseError)
          case Some(amount) =>
            if amount == 0 then Err(LineParseError)
            else Ok(Movement(amount, delta))
  }

  /** The letter of a unit step. */
  function LetterOf(d: Vec2): char
    requires IsUnitAxis(d)
  {
    if d == Vec2(0, 1) then 'U'
    else if d == Vec2(0, -1) then 'D'
    else if d == Vec2(-1, 0) then 'L'
    else 'R'
  }

  /** The spec text of a movement: its letter and its count in decimal. */
  function SpecOf(m: Movement): string
    requires IsUnitAxis(m.delta)
  {
    [LetterOf(m.delta)] + ShowNat(m.amount)
  }

  /** Every movement of a `u32` count survives being written out and parsed back. */
  lemma SpecRoundTrip(m: Movement)
    requires 1 <= m.amount <= U32_MAX && IsUnitAxis(m.delta)
    ensures GetMoveForSpec(SpecOf(m)) == Ok(m)
  {
    var s := SpecOf(m);
    assert s[1..] == ShowNat(m.amount) == Show(m.amount);
    ParseShow(m.amount, false, 0, U32_MAX);
  }

  lemma RejectedSpecs()
    ensures GetMoveForSpec("").Err? && GetMoveForSpec("R").Err?
    ensures GetMoveForSpec("Z2").Err? && GetMoveForSpec("RR").Err?
  {
    assert "RR"[1..] == "R" && !IsDigit('R');
  }

  lemma AcceptedRight()
    ensures GetMoveForSpec("R3") == Ok(Movement(3, Vec2(1, 0)))
  {
    assert "R3"[1..] == "3";
    assert DigitsValue("3") == 3;
  }

  lemma AcceptedUp()
    ensures GetMoveForSpec("U6") == Ok(Movement(6, Vec2(0, 1)))
  {
    assert "U6"[1..] == "6";
    assert DigitsValue("6") == 6;
  }

  lemma AcceptedTwoDigits()
    ensures GetMoveForSpec("L33") == Ok(Movement(33, Vec2(-1, 0)))
  {
    assert "L33"[1..] == "33";
    assert "33"[..1] == "3";
    assert DigitsValue("33") == 33;
  }

  lemma AcceptedThreeDigits()
    ensures GetMoveForSpec("D333") == Ok(Movement(333, Vec2(0, -1)))
  {
    assert "D333"[1..] == "333";
    assert "333"[..2] == "33" && "33"[..1] == "3";
    assert DigitsValue("33") == 33;
    assert DigitsValue("333") == 333;
  }

  // ---------------------------------------------------------------------
  // The cells of a wire
  // ---------------------------------------------------------------------

  /** Each piece of the path must be a movement; the first bad one fails the wire. */
  function ParseMoves(parts: seq<string>): (r: Result<seq<Movement>, ParseError>)
    ensures r.Ok? ==> |r.value| == |parts|
    ensures r.Ok? ==> forall i :: 0 <= i < |parts| ==> GetMoveForSpec(parts[i]) == Ok(r.value[i])
    ensures r.Err? ==> r.error == LineParseError
  {
    if |parts| == 0 then Ok([])
    else match ParseMoves(parts[..|parts| - 1])
      case Err(e) => Err(e)
      case Ok(moves) =>
        match GetMoveForSpec(parts[|parts| - 1])
        case Err(e) => Err(e)
        case Ok(m) => Ok(moves + [m])
  }

  /** A bad piece fails the whole path, whatever comes after it. */
  lemma {:induction false} BadPieceFails(parts: seq<string>, k: nat)
    requires k <= |parts| && ParseMoves(parts[..k]).Err?
    ensures ParseMoves(parts).Err?
    decreases |parts| - k
  {
    if k < |parts| {
      assert parts[..k + 1][..k] == parts[..k];
      BadPieceFails(parts, k + 1);
    } else {
      assert parts[..k] == parts;
    }
  }

  /** The last cell of `s`, or `from` when `s` is empty. */
  function Last(from: Vec2, s: seq<Vec2>): Vec2
  {
    if |s| == 0 then from else s[|s| - 1]
  }

  /** The cells passed over by `k` unit steps of `delta` starting at `from`. */
  function Segment(from: Vec2, delta: Vec2, k: nat): (s: seq<Vec2>)
    ensures |s| == k
  {
    if k == 0 then []
    else
      var s := Segment(from, delta, k - 1);
      s + [Plus(Last(from, s), delta)]
  }

  /** Cell `i` of a segment is `i + 1` steps from its start. */
  lemma {:induction false} SegmentCells(from: Vec2, delta: Vec2, k: nat)
    ensures forall i :: 0 <= i < k ==>
      Segment(from, delta, k)[i] == Vec2(from.x + (i + 1) * delta.x, from.y + (i + 1) * delta.y)
  {
    if k > 0 {
      SegmentCells(from, delta, k - 1);
      var s := Segment(from, delta, k - 1);
      if k > 1 {
        assert s[k - 2] == Vec2(from.x + (k - 1) * delta.x, from.y + (k - 1) * delta.y);
      }
      assert Last(from, s) == Vec2(from.x + (k - 1) * delta.x, from.y + (k - 1) * delta.y);
      assert Segment(from, delta, k) == s + [Plus(Last(from, s), delta)];
    }
  }

  /** Every cell a wire passes over, in order: cell `i` is reached on step `i + 1`. */
  function Walk(moves: seq<Movement>): seq<Vec2>
  {
    if |moves| == 0 then []
    else
      var w := Walk(moves[..|moves| - 1]);
      var m := moves[|moves| - 1];
      w + Segment(Last(Vec2(0, 0), w), m.delta, m.amount)
  }

  /** The cells mapped to the step count of their latest visit, as repeated inserts leave them. */
  function LatestVisits(trace: seq<Vec2>): map<Vec2, nat>
  {
    if |trace| == 0 then map[]
    else LatestVisits(trace[..|trace| - 1])[trace[|trace| - 1] := |trace|]
  }

  /**
   * The map holds exactly the visited cells, each with the step count of its
   * last visit; the origin is there only if the wire comes back to it.
   */
  lemma {:induction false} LatestVisitsMeaning(trace: seq<Vec2>)
    ensures forall p :: p in LatestVisits(trace) <==> p in trace
    ensures forall p :: p in LatestVisits(trace) ==>
      var n := LatestVisits(trace)[p];
      1 <= n <= |trace| && trace[n - 1] == p && forall j :: n <= j < |trace| ==> trace[j] != p
  {
    if |trace| > 0 {
      var front := trace[..|trace| - 1];
      LatestVisitsMeaning(front);
      assert forall p :: p in trace <==> p in front || p == trace[|trace| - 1];
      assert forall j :: 0 <= j < |front| ==> front[j] == trace[j];
    }
  }

  lemma EndOfAppend(base: seq<Vec2>, s: seq<Vec2>)
    ensures Last(Vec2(0, 0), base + s) == Last(Last(Vec2(0, 0), base), s)
  {
  }

  /** One more piece: a bad one fails the whole path, a good one extends the movements. */
  lemma ParseMovesStep(parts: seq<string>, i: nat, moves: seq<Movement>)
    requires i < |parts| && ParseMoves(parts[..i]) == Ok(moves)
    ensures GetMoveForSpec(parts[i]).Err? ==> ParseMoves(parts).Err? && GetMoveForSpec(parts[i]).error == LineParseError
    ensures GetMoveForSpec(parts[i]).Ok? ==> ParseMoves(parts[..i + 1]) == Ok(moves + [GetMoveForSpec(parts[i]).value])
  {
    assert parts[..i + 1][..i] == parts[..i];
    if GetMoveForSpec(parts[i]).Err? {
      BadPieceFails(parts, i + 1);
    }
  }

  /** The walk of one more movement goes on from where the walk so far ended. */
  lemma WalkStep(moves: seq<Movement>, m: Movement)
    ensures Walk(moves + [m]) == Walk(moves) + Segment(Last(Vec2(0, 0), Walk(moves)), m.delta, m.amount)
  {
    assert (moves + [m])[..|moves|] == moves;
  }

  /** The inner loop of `parse_wire_location`: one movement, one cell at a time. */
  method WalkMovement(cur: Vec2, curLength: nat, ret: map<Vec2, nat>, m: Movement, ghost trace: seq<Vec2>)
    returns (cur': Vec2, curLength': nat, ret': map<Vec2, nat>, ghost trace': seq<Vec2>)
    requires cur == Last(Vec2(0, 0), trace) && curLength == |trace| && ret == LatestVisits(trace)
    ensures trace' == trace + Segment(cur, m.delta, m.amount)
    ensures cur' == Last(Vec2(0, 0), trace') && curLength' == |trace'| && ret' == LatestVisits(trace')
  {
    cur', curLength', ret', trace' := cur, curLength, ret, trace;
    var j := 0;
    while j < m.amount
      invariant 0 <= j <= m.amount
      invariant trace' == trace + Segment(cur, m.delta, j)
      invariant cur' == Last(Vec2(0, 0), trace')
      invariant curLength' == |trace'| && ret' == LatestVisits(trace')
    {
      EndOfAppend(trace, Segment(cur, m.delta, j));
      cur' := Plus(cur', m.delta);
      curLength' := curLength' + 1;
      VisitOneMore(trace', cur');
      ret' := ret'[cur' := curLength'];
      trace' := trace' + [cur'];
      j := j + 1;
    }
  }

  lemma AllParts(parts: seq<string>)
    ensures parts[..|parts|] == parts && parts[..0] == []
  {
  }

  /**
   * `parse_wire_location`: walks the movements one cell at a time, inserting
   * each cell with the length so far.
   */
  method ParseWireLocation(path: string) returns (r: Result<map<Vec2, nat>, ParseError>)
    ensures r == match ParseMoves(Split(path, ','))
      case Err(e) => Err(e)
      case Ok(moves) => Ok(LatestVisits(Walk(moves)))
  {
    var parts := Split(path, ',');
    var cur := Vec2(0, 0);
    var curLength := 0;
    var ret: map<Vec2, nat> := map[];
    ghost var moves: seq<Movement> := [];
    ghost var trace: seq<Vec2> := [];
    AllParts(parts);
    var i := 0;
    while i < |parts|
      invariant 0 <= i <= |parts|
      invariant ParseMoves(parts[..i]) == Ok(moves)
      invariant trace == Walk(moves) && cur == Last(Vec2(0, 0), trace)
      invariant curLength == |trace| && ret == LatestVisits(trace)
    {
      var spec := GetMoveForSpec(parts[i]);
      ParseMovesStep(parts, i, moves);
      if spec.Err? {
        return Err(spec.error);
      }
      var m := spec.value;
      WalkStep(moves, m);
      cur, curLength, ret, trace := WalkMovement(cur, curLength, ret, m, trace);
      moves := moves + [m];
      i := i + 1;
    }
    AllParts(parts);
    r := Ok(ret);
  }

  /** Inserting the next cell into the map of a trace gives the map of the longer trace. */
  lemma VisitOneMore(trace: seq<Vec2>, c: Vec2)
    ensures LatestVisits(trace + [c]) == LatestVisits(trace)[c := |trace| + 1]
  {
    assert (trace + [c])[..|trace|] == trace;
  }

  lemma WalkExample()
    ensures LatestVisits(Walk([Movement(2, Vec2(1, 0)), Movement(1, Vec2(0, 1))]))
      == map[Vec2(1, 0) := 1, Vec2(2, 0) := 2, Vec2(2, 1) := 3]
  {
    var a := [Movement(2, Vec2(1, 0)), Movement(1, Vec2(0, 1))];
    assert a[..1] == [Movement(2, Vec2(1, 0))];
    assert Walk(a[..1][..0]) == [];
    assert Segment(Vec2(0, 0), Vec2(1, 0), 1) == [Vec2(1, 0)];
    assert Segment(Vec2(0, 0), Vec2(1, 0), 2) == [Vec2(1, 0), Vec2(2, 0)];
    assert Walk(a[..1]) == [Vec2(1, 0), Vec2(2, 0)];
    assert Segment(Vec2(2, 0), Vec2(0, 1), 1) == [Vec2(2, 1)];
    assert Walk(a) == [Vec2(1, 0), Vec2(2, 0), Vec2(2, 1)];
    VisitOneMore([], Vec2(1, 0));
    VisitOneMore([Vec2(1, 0)], Vec2(2, 0));
    VisitOneMore([Vec2(1, 0), Vec2(2, 0)], Vec2(2, 1));
  }

  /** A cell visited twice keeps its later step count, and the origin is there once revisited. */
  lemma RevisitExample()
    ensures LatestVisits([Vec2(1, 0), Vec2(0, 0), Vec2(1, 0)]) == map[Vec2(1, 0) := 3, Vec2(0, 0) := 2]
  {
    VisitOneMore([], Vec2(1, 0));
    VisitOneMore([Vec2(1, 0)], Vec2(0, 0));
    VisitOneMore([Vec2(1, 0), Vec2(0, 0)], Vec2(1, 0));
    assert [] + [Vec2(1, 0)] == [Vec2(1, 0)];
    assert [Vec2(1, 0)] + [Vec2(0, 0)] == [Vec2(1, 0), Vec2(0, 0)];
    assert [Vec2(1, 0), Vec2(0, 0)] + [Vec2(1, 0)] == [Vec2(1, 0), Vec2(0, 0), Vec2(1, 0)];
  }

  // ---------------------------------------------------------------------
  // The closest crossing
  // ---------------------------------------------------------------------

  function Manhattan(p: Vec2): nat
  {
    Abs(p.x) + Abs(p.y)
  }

  /**
   * `find_closest_intersection_by_manhattan`: over the cells of both wires,
   * the least distance from the origin; `None` when the wires never cross.
   * The keys are visited in the hash map's order, which the minimum ignores.
   */
  method FindClosestIntersectionByManhattan(map1: map<Vec2, nat>, map2: map<Vec2, nat>) returns (r: Option<nat>)
    ensures r.None? <==> forall p :: p in map1 ==> p !in map2
    ensures r.Some? ==> exists p :: p in map1 && p in map2 && r.value == Manhattan(p)
    ensures r.Some? ==> forall p :: p in map1 && p in map2 ==> r.value <= Manhattan(p)
  {
    var keys := map1.Keys;
    ghost var done: set<Vec2> := {};
    r := None;
    while keys != {}
      invariant keys + done == map1.Keys && keys !! done
      invariant r.None? <==> forall p :: p in done ==> p !in map2
      invariant r.Some? ==> exists p :: p in done && p in map2 && r.value == Manhattan(p)
      invariant r.Some? ==> forall p :: p in done && p in map2 ==> r.value <= Manhattan(p)
      decreases keys
    {
      var loc :| loc in keys;
      if loc in map2 {
        var dist := Manhattan(loc);
        r := if r.Some? && r.value < dist then r else Some(dist);
      }
      keys := keys - {loc};
      done := done + {loc};
    }
  }

  /**
   * `find_closest_intersection_by_wire_length`: over the cells of both wires,
   * the least sum of the two step counts; `None` when the wires never cross.
   */
  method FindClosestIntersectionByWireLength(map1: map<Vec2, nat>, map2: map<Vec2, nat>) returns (r: Option<nat>)
    ensures r.None? <==> forall p :: p in map1 ==> p !in map2
    ensures r.Some? ==> exists p :: p in map1 && p in map2 && r.value == map1[p] + map2[p]
    ensures r.Some? ==> forall p :: p in map1 && p in map2 ==> r.value <= map1[p] + map2[p]
  {
    var keys := map1.Keys;
    ghost var done: set<Vec2> := {};
    r := None;
    while keys != {}
      invariant keys + done == map1.Keys && keys !! done
      invariant r.None? <==> forall p :: p in done ==> p !in map2
      invariant r.Some? ==> exists p :: p in done && p in map2 && r.value == map1[p] + map2[p]
      invariant r.Some? ==> forall p :: p in done && p in map2 ==> r.value <= map1[p] + map2[p]
      decreases keys
    {
      var loc :| loc in keys;
      if loc in map2 {
        var dist := map1[loc] + map2[loc];
        r := if r.Some? && r.value < dist then r else Some(dist);
      }
      keys := keys - {loc};
      done := done + {loc};
    }
  }
}
