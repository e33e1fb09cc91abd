/**
 * Day 6 of 2019: the orbit map. Objects are numbered in the order their
 * names first appear, COM is object 0 and orbits itself, and each object
 * records the object it orbits once a line names it as an orbiter. The
 * walks up the parent links in the source stop only on reaching COM, so a
 * cycle of orbits that avoids COM makes them run forever; the model reports
 * that as `Diverges` and proves when it happens.
 */
module Day6 {
  import opened Common

  datatype OrbitError = ParseError | DuplicateEntry | MissingLink | NodeNotFound | Loop

  /** How a query ends: a count, an error, a `usize` underflow panic, or never. */
  datatype Outcome = Done(value: nat) | Failed(error: OrbitError) | Panicked | Diverges

  /** The parent of each object, by index: `None` until some line names it as an orbiter. */
  type Objects = seq<Option<nat>>

  /** COM is object 0 and its own parent, and every recorded parent is an object. */
  predicate WellFormed(objects: Objects)
  {
    |objects| > 0 && objects[0] == Some(0)
    && forall i :: 0 <= i < |objects| && objects[i].Some? ==> objects[i].value < |objects|
  }

  /** Every object has a parent. */
  predicate Linked(objects: Objects)
  {
    forall i :: 0 <= i < |objects| ==> objects[i].Some? && objects[i].value < |objects|
  }

  // ---------------------------------------------------------------------
  // Walking up the parent links
  // ---------------------------------------------------------------------

  /** The object `k` parent links above object `i`. */
  function Up(objects: Objects, i: nat, k: nat): (j: nat)
    requires Linked(objects) && i < |objects|
    ensures j < |objects|
    decreases k
  {
    if k == 0 then i else Up(objects, objects[i].value, k - 1)
  }

  lemma {:induction false} UpShift(objects: Objects, i: nat, a: nat, b: nat)
    requires Linked(objects) && i < |objects|
    ensures Up(objects, i, a + b) == Up(objects, Up(objects, i, a), b)
    decreases a
  {
    if a > 0 {
      UpShift(objects, objects[i].value, a - 1, b);
    }
  }

  /** One more link is the parent of the object reached so far. */
  lemma UpStep(objects: Objects, i: nat, k: nat)
    requires Linked(objects) && i < |objects|
    ensures Up(objects, i, k + 1) == objects[Up(objects, i, k)].value
  {
    UpShift(objects, i, k, 1);
  }

  /**
   * The least number of links, from `m` on, after which the walk from `i`
   * is in `targets`; the search stops after `|objects|` links.
   */
  function FirstHit(objects: Objects, i: nat, targets: set<nat>, m: nat): (r: Option<nat>)
    requires Linked(objects) && i < |objects|
    ensures r.Some? ==> m <= r.value <= |objects| && Up(objects, i, r.value) in targets
    ensures r.Some? ==> forall k :: m <= k < r.value ==> Up(objects, i, k) !in targets
    ensures r.None? ==> forall k :: m <= k <= |objects| ==> Up(objects, i, k) !in targets
    decreases |objects| + 1 - m
  {
    if m > |objects| then None
    else if Up(objects, i, m) in targets then Some(m)
    else FirstHit(objects, i, targets, m + 1)
  }

  /** The set `{0, .., n - 1}`. */
  function Below(n: nat): (s: set<nat>)
    ensures |s| == n
    ensures forall x: nat :: x in s <==> x < n
  {
    if n == 0 then {} else Below(n - 1) + {n - 1}
  }

  lemma RangeBound(s: set<nat>, n: nat)
    requires forall x :: x in s ==> x < n
    ensures |s| <= n
  {
    assert s <= Below(n);
    SubsetSize(s, Below(n));
  }

  lemma SubsetSize<T>(a: set<T>, b: set<T>)
    requires a <= b
    ensures |a| <= |b|
  {
    assert b == a + (b - a);
  }

  /** The objects on the walk from `i` over its first `n` links and the one after. */
  function Path(objects: Objects, i: nat, n: nat): set<nat>
    requires Linked(objects) && i < |objects|
  {
    set k | 0 <= k <= n :: Up(objects, i, k)
  }

  /** Distinct objects on the walk make a path of `n + 1` objects. */
  lemma {:induction false} PathSize(objects: Objects, i: nat, n: nat)
    requires Linked(objects) && i < |objects|
    requires forall a, b :: 0 <= a < b <= n ==> Up(objects, i, a) != Up(objects, i, b)
    ensures |Path(objects, i, n)| == n + 1
  {
    if n == 0 {
      assert Path(objects, i, 0) == {i};
    } else {
      PathSize(objects, i, n - 1);
      PathGrows(objects, i, n);
      assert Up(objects, i, n) !in Path(objects, i, n - 1);
    }
  }

  lemma PathGrows(objects: Objects, i: nat, n: nat)
    requires Linked(objects) && i < |objects| && n > 0
    ensures Path(objects, i, n) == Path(objects, i, n - 1) + {Up(objects, i, n)}
  {
  }

  /** Before a walk first arrives in `targets`, it never visits an object twice. */
  lemma FirstHitDistinct(objects: Objects, i: nat, targets: set<nat>, n: nat)
    requires Linked(objects) && i < |objects|
    requires Up(objects, i, n) in targets
    requires forall k :: 0 <= k < n ==> Up(objects, i, k) !in targets
    ensures forall a, b :: 0 <= a < b <= n ==> Up(objects, i, a) != Up(objects, i, b)
  {
    forall a, b | 0 <= a < b <= n
      ensures Up(objects, i, a) != Up(objects, i, b)
    {
      if b < n && Up(objects, i, a) == Up(objects, i, b) {
        UpShift(objects, i, a, n - b);
        UpShift(objects, i, b, n - b);
        assert false;
      }
    }
  }

  /**
   * Pigeonhole: a walk first arrives in `targets` after fewer links than
   * there are objects, since every object up to the arrival is distinct.
   */
  lemma FirstHitBound(objects: Objects, i: nat, targets: set<nat>, n: nat)
    requires Linked(objects) && i < |objects|
    requires Up(objects, i, n) in targets
    requires forall k :: 0 <= k < n ==> Up(objects, i, k) !in targets
    ensures n < |objects|
  {
    FirstHitDistinct(objects, i, targets, n);
    PathSize(objects, i, n);
    RangeBound(Path(objects, i, n), |objects|);
  }

  /** The search finds the first arrival, wherever it is. */
  lemma FirstHitIs(objects: Objects, i: nat, targets: set<nat>, n: nat)
    requires Linked(objects) && i < |objects|
    requires Up(objects, i, n) in targets
    requires forall k :: 0 <= k < n ==> Up(objects, i, k) !in targets
    ensures FirstHit(objects, i, targets, 0) == Some(n)
  {
    FirstHitBound(objects, i, targets, n);
    FirstHitFrom(objects, i, targets, n, 0);
  }

  lemma {:induction false} FirstHitFrom(objects: Objects, i: nat, targets: set<nat>, n: nat, m: nat)
    requires Linked(objects) && i < |objects| && m <= n <= |objects|
    requires Up(objects, i, n) in targets
    requires forall k :: m <= k < n ==> Up(objects, i, k) !in targets
    ensures FirstHit(objects, i, targets, m) == Some(n)
    decreases n - m
  {
    if m < n {
      FirstHitFrom(objects, i, targets, n, m + 1);
    }
  }

  /** The bounded search is exact: a walk it does not find in `targets` never gets there. */
  lemma FirstHitComplete(objects: Objects, i: nat, targets: set<nat>)
    requires Linked(objects) && i < |objects|
    requires FirstHit(objects, i, targets, 0).None?
    ensures forall k :: Up(objects, i, k) !in targets
  {
    forall k ensures Up(objects, i, k) !in targets {
      if Up(objects, i, k) in targets {
        var n := LeastHit(objects, i, targets, k);
        FirstHitBound(objects, i, targets, n);
      }
    }
  }

  /** Some first arrival comes no later than any arrival. */
  lemma {:induction false} LeastHit(objects: Objects, i: nat, targets: set<nat>, k: nat) returns (n: nat)
    requires Linked(objects) && i < |objects|
    requires Up(objects, i, k) in targets
    ensures n <= k && Up(objects, i, n) in targets
    ensures forall j :: 0 <= j < n ==> Up(objects, i, j) !in targets
    decreases k
  {
    if exists j :: 0 <= j < k && Up(objects, i, j) in targets {
      var j :| 0 <= j < k && Up(objects, i, j) in targets;
      n := LeastHit(objects, i, targets, j);
    } else {
      n := k;
    }
  }

  /** The number of parent links from object `i` up to COM, if the walk gets there. */
  function Depth(objects: Objects, i: nat): Option<nat>
    requires Linked(objects) && i < |objects|
  {
    FirstHit(objects, i, {0}, 0)
  }

  /** Revisiting an object before reaching COM means the walk never reaches it. */
  lemma RepeatNeverArrives(objects: Objects, i: nat, c: nat, k: nat)
    requires Linked(objects) && i < |objects|
    requires c < k && Up(objects, i, c) == Up(objects, i, k)
    requires forall j :: 0 <= j <= k ==> Up(objects, i, j) != 0
    ensures Depth(objects, i).None?
  {
    var r := Depth(objects, i);
    if r.Some? {
      FirstHitDistinct(objects, i, {0}, r.value);
      assert false;
    }
  }

  /** The sum of the depths of objects `1 .. n - 1`; `None` once any walk never arrives. */
  function DepthSum(objects: Objects, n: nat): Option<nat>
    requires Linked(objects) && n <= |objects|
  {
    if n <= 1 then Some(0)
    else match DepthSum(objects, n - 1)
      case None => None
      case Some(s) =>
        match Depth(objects, n - 1)
        case None => None
        case Some(d) => Some(s + d)
  }

  /** `total_number_of_orbits`: every object but COM contributes its depth. */
  function TotalOrbits(objects: Objects): Outcome
    requires WellFormed(objects)
  {
    if !Linked(objects) then Failed(MissingLink)
    else match DepthSum(objects, |objects|)
      case None => Diverges
      case Some(t) => Done(t)
  }

  lemma {:induction false} DepthSumStaysNone(objects: Objects, n: nat, m: nat)
    requires Linked(objects) && n <= m <= |objects|
    requires DepthSum(objects, n).None?
    ensures DepthSum(objects, m).None?
    decreases m - n
  {
    if n < m {
      DepthSumStaysNone(objects, n, m - 1);
    }
  }

  /**
   * The total diverges exactly when some object's walk never reaches COM;
   * otherwise every object has a depth.
   */
  lemma {:induction false} DepthSumDefined(objects: Objects, n: nat)
    requires Linked(objects) && n <= |objects|
    ensures DepthSum(objects, n).Some? <==> forall i :: 1 <= i < n ==> Depth(objects, i).Some?
    decreases n
  {
    if n > 1 {
      DepthSumDefined(objects, n - 1);
    }
  }

  /** The map `a_nodes` built from object `i`: each of the first `n` objects on the walk, with its link count. */
  function ANodes(objects: Objects, i: nat, n: nat): (m: map<nat, nat>)
    requires Linked(objects) && i < |objects|
    ensures forall k :: 0 <= k < n ==> Up(objects, i, k) in m
    ensures forall x :: x in m ==> x < |objects|
  {
    if n == 0 then map[] else ANodes(objects, i, n - 1)[Up(objects, i, n - 1) := n - 1]
  }

  /** One round of the first loop of `find_distance`: the walk moves on and the map gains a fresh key. */
  lemma AncestorStep(objects: Objects, a: nat, count: nat, aNodes: map<nat, nat>)
    requires Linked(objects) && a < |objects|
    requires aNodes == ANodes(objects, a, count) && |aNodes.Keys| == count
    requires Up(objects, a, count) !in aNodes
    ensures Up(objects, a, count + 1) == objects[Up(objects, a, count)].value
    ensures aNodes[Up(objects, a, count) := count] == ANodes(objects, a, count + 1)
    ensures |ANodes(objects, a, count + 1).Keys| == count + 1 <= |objects|
  {
    UpStep(objects, a, count);
    var m := aNodes[Up(objects, a, count) := count];
    assert m.Keys == aNodes.Keys + {Up(objects, a, count)};
    RangeBound(m.Keys, |objects|);
  }

  /** Only objects on the walk are in the map. */
  lemma {:induction false} ANodesWitness(objects: Objects, i: nat, n: nat, x: nat) returns (k: nat)
    requires Linked(objects) && i < |objects|
    requires x in ANodes(objects, i, n)
    ensures k < n && Up(objects, i, k) == x
  {
    if Up(objects, i, n - 1) == x {
      k := n - 1;
    } else {
      k := ANodesWitness(objects, i, n - 1, x);
    }
  }

  /** Along a walk that visits no object twice, the map gives each object its own link count. */
  lemma {:induction false} ANodesValue(objects: Objects, i: nat, n: nat)
    requires Linked(objects) && i < |objects|
    requires forall a, b :: 0 <= a < b < n ==> Up(objects, i, a) != Up(objects, i, b)
    ensures forall k :: 0 <= k < n ==> ANodes(objects, i, n)[Up(objects, i, k)] == k
  {
    if n > 0 {
      ANodesValue(objects, i, n - 1);
    }
  }

  /**
   * `find_distance_between`: the links from each of the two objects up to
   * their nearest common ancestor on the first object's walk, less the two
   * links out of the objects themselves.
   */
  function Distance(objects: Objects, names: map<string, nat>, aName: string, bName: string): Outcome
    requires WellFormed(objects) && forall n :: n in names ==> names[n] < |objects|
  {
    if !Linked(objects) then Failed(MissingLink)
    else if aName !in names || bName !in names then Failed(NodeNotFound)
    else
      var a, b := names[aName], names[bName];
      match Depth(objects, a)
      case None => Failed(Loop)
      case Some(ka) =>
        var aNodes := ANodes(objects, a, ka + 1);
        match FirstHit(objects, b, aNodes.Keys, 0)
        case None => Diverges
        case Some(kb) =>
          var total := kb + aNodes[Up(objects, b, kb)];
          if total < 2 then Panicked else Done(total - 2)
  }

  /**
   * A distance is the number of links between the two objects' parents
   * through an ancestor of both, the first such on the second object's walk.
   */
  lemma DistanceMeaning(objects: Objects, names: map<string, nat>, aName: string, bName: string, d: nat)
    requires WellFormed(objects) && forall n :: n in names ==> names[n] < |objects|
    requires Distance(objects, names, aName, bName) == Done(d)
    ensures aName in names && bName in names && Linked(objects)
    ensures var a, b := names[aName], names[bName];
      exists ka: nat, kb: nat :: Up(objects, a, ka) == Up(objects, b, kb) && d + 2 == ka + kb
        && (forall j :: 0 <= j < kb ==> forall k :: 0 <= k <= ka ==> Up(objects, b, j) != Up(objects, a, k))
  {
    var a, b := names[aName], names[bName];
    var depth := Depth(objects, a).value;
    var aNodes := ANodes(objects, a, depth + 1);
    var kb := FirstHit(objects, b, aNodes.Keys, 0).value;
    FirstHitDistinct(objects, a, {0}, depth);
    ANodesValue(objects, a, depth + 1);
    var x := Up(objects, b, kb);
    var ka := ANodesWitness(objects, a, depth + 1, x);
    assert aNodes[x] == ka;
    forall j | 0 <= j < kb ensures forall k :: 0 <= k <= ka ==> Up(objects, b, j) != Up(objects, a, k) {
      assert Up(objects, b, j) !in aNodes.Keys;
    }
  }

  // ---------------------------------------------------------------------
  // Registering names and orbits
  // ---------------------------------------------------------------------

  predicate NamesInRange(objects: Objects, names: map<string, nat>)
  {
    forall n :: n in names ==> names[n] < |objects|
  }

  /** What `OrbitMap` keeps true: COM is registered as object 0 and every index is an object. */
  predicate Consistent(objects: Objects, names: map<string, nat>)
  {
    WellFormed(objects) && NamesInRange(objects, names) && "COM" in names && names["COM"] == 0
  }

  /** `get_or_add_obect`: the index of a known name, or a new parentless object at the end. */
  function Register(objects: Objects, names: map<string, nat>, name: string): (r: (Objects, map<string, nat>, nat))
    requires Consistent(objects, names)
    ensures Consistent(r.0, r.1)
    ensures name in r.1 && r.1[name] == r.2
    ensures forall n :: n in names ==> n in r.1 && r.1[n] == names[n]
    ensures forall n :: n in r.1 ==> n in names || n == name
    ensures |r.0| >= |objects| && r.0[..|objects|] == objects
    ensures forall k :: |objects| <= k < |r.0| ==> r.0[k].None?
  {
    if name in names then (objects, names, names[name])
    else (objects + [None], names[name := |objects|], |objects|)
  }

  /**
   * `add_orbit`: registers both names, then gives the orbiter its parent;
   * an orbiter that already has one is a duplicate entry, and the names stay
   * registered.
   */
  function AddOrbitTo(objects: Objects, names: map<string, nat>, orbited: string, orbitor: string)
    : (r: (Objects, map<string, nat>, Result<(), OrbitError>))
    requires Consistent(objects, names)
    ensures Consistent(r.0, r.1)
    ensures orbited in r.1 && orbitor in r.1
    ensures forall n :: n in names ==> n in r.1 && r.1[n] == names[n]
    ensures r.2.Ok? <==> orbitor !in names || objects[names[orbitor]].None?
    ensures r.2.Err? ==> r.2.error == DuplicateEntry
    ensures r.2.Ok? ==> r.0[r.1[orbitor]] == Some(r.1[orbited])
    ensures |r.0| >= |objects|
    ensures forall k :: 0 <= k < |objects| && (r.2.Err? || k != r.1[orbitor]) ==> r.0[k] == objects[k]
    ensures forall k :: 0 <= k < |objects| && objects[k].Some? ==> r.0[k] == objects[k]
  {
    var (o1, n1, a) := Register(objects, names, orbited);
    var (o2, n2, b) := Register(o1, n1, orbitor);
    if o2[b].Some? then (o2, n2, Err(DuplicateEntry))
    else (o2[b := Some(a)], n2, Ok(()))
  }

  /**
   * `add_lines`: each line must be `A)B`; the first bad line or duplicate
   * stops the rest. Names keep their indexes and recorded parents stay.
   */
  function AddLinesTo(objects: Objects, names: map<string, nat>, lines: seq<string>)
    : (r: (Objects, map<string, nat>, Result<(), OrbitError>))
    requires Consistent(objects, names)
    ensures Consistent(r.0, r.1)
    ensures forall n :: n in names ==> n in r.1 && r.1[n] == names[n]
    ensures |r.0| >= |objects|
    ensures forall k :: 0 <= k < |objects| && objects[k].Some? ==> r.0[k] == objects[k]
    ensures r.2.Err? ==> r.2.error == ParseError || r.2.error == DuplicateEntry
    decreases |lines|
  {
    if |lines| == 0 then (objects, names, Ok(()))
    else
      var parts := Split(lines[0], ')');
      if |parts| != 2 then (objects, names, Err(ParseError))
      else
        var (o, n, res) := AddOrbitTo(objects, names, parts[0], parts[1]);
        if res.Err? then (o, n, res) else AddLinesTo(o, n, lines[1..])
  }

  /** Once every line has been applied, each line is `A)B` and records `A` as the parent of `B`. */
  lemma {:induction false} AddLinesRecords(objects: Objects, names: map<string, nat>, lines: seq<string>)
    requires Consistent(objects, names)
    requires AddLinesTo(objects, names, lines).2.Ok?
    ensures var (o, n, _) := AddLinesTo(objects, names, lines);
      forall l :: l in lines ==>
        var parts := Split(l, ')');
        |parts| == 2 && parts[0] in n && parts[1] in n && n[parts[1]] < |o| && o[n[parts[1]]] == Some(n[parts[0]])
    decreases |lines|
  {
    if |lines| > 0 {
      var parts := Split(lines[0], ')');
      var (o1, n1, res) := AddOrbitTo(objects, names, parts[0], parts[1]);
      assert AddLinesTo(objects, names, lines) == AddLinesTo(o1, n1, lines[1..]);
      AddLinesRecords(o1, n1, lines[1..]);
      assert forall l :: l in lines ==> l == lines[0] || l in lines[1..];
    }
  }

  /** Applying two runs of lines one after the other is applying them together, stopping at the first error. */
  lemma {:induction false} AddLinesAppend(objects: Objects, names: map<string, nat>, a: seq<string>, b: seq<string>)
    requires Consistent(objects, names)
    ensures var (o, n, res) := AddLinesTo(objects, names, a);
      AddLinesTo(objects, names, a + b) == if res.Err? then (o, n, res) else AddLinesTo(o, n, b)
    decreases |a|
  {
    if |a| == 0 {
      assert a + b == b;
    } else {
      assert (a + b)[0] == a[0] && (a + b)[1..] == a[1..] + b;
      var parts := Split(a[0], ')');
      if |parts| == 2 {
        var (o1, n1, res) := AddOrbitTo(objects, names, parts[0], parts[1]);
        if res.Ok? {
          AddLinesAppend(o1, n1, a[1..], b);
        }
      }
    }
  }

  /** A line that is not `A)B` stops the map with a parse error, the lines before it applied. */
  lemma {:induction false} AddLinesParseError(objects: Objects, names: map<string, nat>, lines: seq<string>, k: nat)
    requires Consistent(objects, names) && k < |lines| && |Split(lines[k], ')')| != 2
    requires AddLinesTo(objects, names, lines[..k]).2.Ok?
    ensures var pre := AddLinesTo(objects, names, lines[..k]);
      AddLinesTo(objects, names, lines) == (pre.0, pre.1, Err(ParseError))
  {
    var pre := AddLinesTo(objects, names, lines[..k]);
    AddLinesFrom(objects, names, lines, k);
    assert lines[k..][0] == lines[k];
    AddLinesStart(pre.0, pre.1, lines[k..]);
  }

  /** When the lines before `k` applied cleanly, the map goes on from line `k`. */
  lemma {:induction false} AddLinesFrom(objects: Objects, names: map<string, nat>, lines: seq<string>, k: nat)
    requires Consistent(objects, names) && k <= |lines|
    requires AddLinesTo(objects, names, lines[..k]).2.Ok?
    ensures var pre := AddLinesTo(objects, names, lines[..k]);
      Consistent(pre.0, pre.1) && AddLinesTo(objects, names, lines) == AddLinesTo(pre.0, pre.1, lines[k..])
  {
    var a, b := lines[..k], lines[k..];
    assert a + b == lines;
    AddLinesAppend(objects, names, a, b);
  }

  /** How a run of lines begins: with its first line, which is either not `A)B` or an orbit to add. */
  lemma {:induction false} AddLinesStart(objects: Objects, names: map<string, nat>, lines: seq<string>)
    requires Consistent(objects, names) && |lines| > 0
    ensures var parts := Split(lines[0], ')');
      |parts| != 2 ==> AddLinesTo(objects, names, lines) == (objects, names, Err(ParseError))
    ensures var parts := Split(lines[0], ')');
      |parts| == 2 && AddOrbitTo(objects, names, parts[0], parts[1]).2.Err? ==>
        AddLinesTo(objects, names, lines) == AddOrbitTo(objects, names, parts[0], parts[1])
  {
  }

  /**
   * A line naming an orbiter that already has a parent stops the map with a
   * duplicate entry, the lines before it applied and both its names registered.
   */
  lemma {:induction false} AddLinesDuplicate(objects: Objects, names: map<string, nat>, lines: seq<string>, k: nat)
    requires Consistent(objects, names) && k < |lines| && |Split(lines[k], ')')| == 2
    requires AddLinesTo(objects, names, lines[..k]).2.Ok?
    requires var pre := AddLinesTo(objects, names, lines[..k]);
      var orbitor := Split(lines[k], ')')[1];
      orbitor in pre.1 && pre.0[pre.1[orbitor]].Some?
    ensures var pre := AddLinesTo(objects, names, lines[..k]);
      var parts := Split(lines[k], ')');
      AddLinesTo(objects, names, lines) == AddOrbitTo(pre.0, pre.1, parts[0], parts[1])
      && AddLinesTo(objects, names, lines).2 == Err(DuplicateEntry)
  {
    var pre := AddLinesTo(objects, names, lines[..k]);
    AddLinesFrom(objects, names, lines, k);
    assert lines[k..][0] == lines[k];
    AddLinesStart(pre.0, pre.1, lines[k..]);
  }

  // ---------------------------------------------------------------------
  // The unit tests, and a cycle
  // ---------------------------------------------------------------------

  /** The registration test: a second parent for `B` is refused, and the map is valid once `A` has one. */
  lemma RegistrationExample()
    ensures var (o1, n1, r1) := AddOrbitTo([Some(0)], map["COM" := 0], "A", "B");
      r1.Ok? && o1 == [Some(0), None, Some(1)] && !Linked(o1)
      && var (o2, n2, r2) := AddOrbitTo(o1, n1, "COM", "B");
      r2 == Err(DuplicateEntry) && o2 == o1 && !Linked(o2)
      && var (o3, n3, r3) := AddOrbitTo(o2, n2, "COM", "A");
      r3.Ok? && o3 == [Some(0), Some(0), Some(1)] && Linked(o3)
  {
    assert "A" != "COM" && "B" != "COM" && "A" != "B";
    var (o1, n1, r1) := AddOrbitTo([Some(0)], map["COM" := 0], "A", "B");
    assert o1[1].None?;
  }

  /** The sample map, objects numbered in order of first appearance: COM, B, C, D, E, F, G, H, I, J, K, L. */
  const Sample: Objects := [Some(0), Some(0), Some(1), Some(2), Some(3), Some(4), Some(1), Some(6), Some(3), Some(4), Some(9), Some(10)]

  lemma DepthIs(objects: Objects, i: nat, n: nat)
    requires Linked(objects) && i < |objects|
    requires Up(objects, i, n) == 0 && forall k :: 0 <= k < n ==> Up(objects, i, k) != 0
    ensures Depth(objects, i) == Some(n)
  {
    FirstHitIs(objects, i, {0}, n);
  }

  lemma SampleLinked()
    ensures Linked(Sample)
  {
  }

  lemma SampleDepthsNear()
    ensures Linked(Sample)
    ensures Depth(Sample, 1) == Some(1) && Depth(Sample, 2) == Some(2) && Depth(Sample, 3) == Some(3)
    ensures Depth(Sample, 6) == Some(2) && Depth(Sample, 7) == Some(3)
  {
    SampleLinked();
    assert Up(Sample, 2, 1) == 1 && Up(Sample, 3, 1) == 2 && Up(Sample, 3, 2) == 1;
    assert Up(Sample, 7, 1) == 6;
    DepthIs(Sample, 1, 1);
    DepthIs(Sample, 2, 2);
    DepthIs(Sample, 3, 3);
    DepthIs(Sample, 6, 2);
    DepthIs(Sample, 7, 3);
  }

  lemma SampleDepthsMiddle()
    ensures Linked(Sample)
    ensures Depth(Sample, 4) == Some(4) && Depth(Sample, 8) == Some(4)
  {
    SampleLinked();
    assert Up(Sample, 4, 1) == 3 && Up(Sample, 4, 2) == 2 && Up(Sample, 4, 3) == 1;
    assert Up(Sample, 8, 1) == 3 && Up(Sample, 8, 2) == 2 && Up(Sample, 8, 3) == 1;
    DepthIs(Sample, 4, 4);
    DepthIs(Sample, 8, 4);
  }

  lemma SampleDepthsFar()
    ensures Linked(Sample)
    ensures Depth(Sample, 5) == Some(5) && Depth(Sample, 9) == Some(5)
  {
    SampleLinked();
    UpShift(Sample, 5, 1, 3);
    UpShift(Sample, 9, 1, 3);
    assert Up(Sample, 4, 1) == 3 && Up(Sample, 4, 2) == 2 && Up(Sample, 4, 3) == 1;
    assert Up(Sample, 5, 1) == 4 && Up(Sample, 9, 1) == 4;
    DepthIs(Sample, 5, 5);
    DepthIs(Sample, 9, 5);
  }

  lemma SampleDepthsFarthest()
    ensures Linked(Sample)
    ensures Depth(Sample, 10) == Some(6) && Depth(Sample, 11) == Some(7)
  {
    SampleLinked();
    assert Up(Sample, 4, 1) == 3 && Up(Sample, 4, 2) == 2 && Up(Sample, 4, 3) == 1;
    assert Up(Sample, 11, 1) == 10 && Up(Sample, 11, 2) == 9 && Up(Sample, 11, 3) == 4;
    UpShift(Sample, 11, 3, 1);
    UpShift(Sample, 11, 3, 2);
    UpShift(Sample, 11, 3, 3);
    UpShift(Sample, 11, 3, 4);
    UpShift(Sample, 11, 1, 5);
    DepthIs(Sample, 10, 6);
    DepthIs(Sample, 11, 7);
  }

  /** The running sum over the first four objects. */
  lemma SampleSumNearest()
    ensures Linked(Sample)
    ensures DepthSum(Sample, 4) == Some(6)
  {
    SampleDepthsNear();
    assert DepthSum(Sample, 2) == Some(1);
    assert DepthSum(Sample, 3) == Some(3);
  }

  /** The running sum over the first seven objects. */
  lemma SampleSumNear()
    ensures Linked(Sample)
    ensures DepthSum(Sample, 7) == Some(17)
  {
    SampleSumNearest();
    SampleDepthsNear();
    SampleDepthsMiddle();
    SampleDepthsFar();
    assert DepthSum(Sample, 5) == Some(10);
    assert DepthSum(Sample, 6) == Some(15);
  }

  lemma SampleTotal()
    ensures TotalOrbits(Sample) == Done(42)
  {
    SampleSumNear();
    SampleDepthsNear();
    SampleDepthsMiddle();
    SampleDepthsFar();
    SampleDepthsFarthest();
    assert DepthSum(Sample, 8) == Some(20);
    assert DepthSum(Sample, 9) == Some(24);
    assert DepthSum(Sample, 10) == Some(29);
    assert DepthSum(Sample, 11) == Some(35);
    assert DepthSum(Sample, 12) == Some(42);
  }

  /** The distance sample: the sample map with YOU orbiting K and SAN orbiting I. */
  const Transfers: Objects := Sample + [Some(10), Some(8)]

  lemma TransferWalks()
    ensures Linked(Transfers)
    ensures Depth(Transfers, 12) == Some(7)
    ensures Up(Transfers, 13, 2) == 3 && Up(Transfers, 12, 4) == 3
    ensures forall k :: 0 <= k < 8 ==> Up(Transfers, 12, k) != 8
  {
    assert Linked(Transfers);
    var t := Transfers;
    assert Up(t, 12, 1) == 10 && Up(t, 12, 2) == 9 && Up(t, 12, 3) == 4;
    UpShift(t, 12, 3, 1);
    UpShift(t, 12, 3, 2);
    UpShift(t, 12, 3, 3);
    UpShift(t, 12, 3, 4);
    assert Up(t, 12, 4) == 3 && Up(t, 12, 5) == 2 && Up(t, 12, 6) == 1 && Up(t, 12, 7) == 0;
    DepthIs(t, 12, 7);
    assert Up(t, 13, 1) == 8;
    forall k | 0 <= k < 8
      ensures Up(t, 12, k) != 8
    {
    }
  }

  /** YOU and SAN are four orbital transfers apart. */
  lemma TransferExample()
    ensures Distance(Transfers, map["COM" := 0, "YOU" := 12, "SAN" := 13], "YOU", "SAN") == Done(4)
  {
    TransferWalks();
    var t := Transfers;
    var aNodes := ANodes(t, 12, 8);
    FirstHitDistinct(t, 12, {0}, 7);
    ANodesValue(t, 12, 8);
    assert aNodes[3] == 4;
    assert Up(t, 13, 0) !in aNodes by {
      if Up(t, 13, 0) in aNodes {
        var k := ANodesWitness(t, 12, 8, 13);
      }
    }
    assert Up(t, 13, 1) !in aNodes by {
      if Up(t, 13, 1) in aNodes {
        var k := ANodesWitness(t, 12, 8, 8);
      }
    }
    FirstHitIs(t, 13, aNodes.Keys, 2);
  }

  /** Two objects orbiting each other: counting their orbits never ends. */
  lemma CycleDiverges()
    ensures TotalOrbits([Some(0), Some(2), Some(1)]) == Diverges
  {
    var objects := [Some(0), Some(2), Some(1)];
    assert Linked(objects);
    assert Up(objects, 1, 0) == Up(objects, 1, 2) by {
      assert Up(objects, 1, 2) == Up(objects, 2, 1) == Up(objects, 1, 0);
    }
    RepeatNeverArrives(objects, 1, 0, 2);
  }

  // ---------------------------------------------------------------------
  // The object
  // ---------------------------------------------------------------------

  class OrbitMap {
    var objects: Objects
    var objectNames: map<string, nat>

    predicate Valid()
      reads this
    {
      Consistent(objects, objectNames)
    }

    /** `new`: COM alone, orbiting itself. */
    constructor ()
      ensures Valid()
      ensures objects == [Some(0)] && objectNames == map["COM" := 0]
    {
      objects := [Some(0)];
      objectNames := map["COM" := 0];
    }

    method GetOrAddObject(name: string) returns (ndx: nat)
      requires Valid()
      modifies this
      ensures Valid()
      ensures (objects, objectNames, ndx) == Register(old(objects), old(objectNames), name)
    {
      if name in objectNames {
        ndx := objectNames[name];
      } else {
        objects := objects + [None];
        ndx := |objects| - 1;
        objectNames := objectNames[name := ndx];
      }
    }

    method AddOrbit(orbitedName: string, orbitorName: string) returns (r: Result<(), OrbitError>)
      requires Valid()
      modifies this
      ensures Valid()
      ensures (objects, objectNames, r) == AddOrbitTo(old(objects), old(objectNames), orbitedName, orbitorName)
    {
      var orbitedNdx := GetOrAddObject(orbitedName);
      var orbitorNdx := GetOrAddObject(orbitorName);
      if objects[orbitorNdx].Some? {
        r := Err(DuplicateEntry);
      } else {
        objects := objects[orbitorNdx := Some(orbitedNdx)];
        r := Ok(());
      }
    }

    method AddLines(lines: seq<string>) returns (r: Result<(), OrbitError>)
      requires Valid()
      modifies this
      ensures Valid()
      ensures (objects, objectNames, r) == AddLinesTo(old(objects), old(objectNames), lines)
    {
      var i := 0;
      while i < |lines|
        invariant 0 <= i <= |lines| && Valid()
        invariant AddLinesTo(old(objects), old(objectNames), lines)
          == AddLinesTo(objects, objectNames, lines[i..])
      {
        assert lines[i..][1..] == lines[i + 1..];
        var parts := Split(lines[i], ')');
        if |parts| != 2 {
          return Err(ParseError);
        }
        r := AddOrbit(parts[0], parts[1]);
        if r.Err? {
          return;
        }
        i := i + 1;
      }
      r := Ok(());
    }

    /** `validate`: a missing link iff some object has no parent. */
    method Validate() returns (r: Result<(), OrbitError>)
      requires Valid()
      ensures r.Ok? <==> Linked(objects)
      ensures r.Err? ==> r.error == MissingLink
    {
      var i := 0;
      while i < |objects|
        invariant 0 <= i <= |objects|
        invariant forall k :: 0 <= k < i ==> objects[k].Some?
      {
        if objects[i].None? {
          return Err(MissingLink);
        }
        i := i + 1;
      }
      r := Ok(());
    }

    /** `count_one`: links up from object `i` until the parent is COM; `None` where the source walks for ever. */
    method CountOne(i: nat) returns (r: Option<nat>)
      requires Valid() && Linked(objects) && 0 < i < |objects|
      ensures r == Depth(objects, i)
    {
      var cur := i;
      var ret := 1;
      while objects[cur].value != 0
        invariant 1 <= ret <= |objects|
        invariant cur == Up(objects, i, ret - 1)
        invariant forall k :: 0 <= k < ret ==> Up(objects, i, k) != 0
        decreases |objects| - ret
      {
        UpStep(objects, i, ret - 1);
        if ret == |objects| {
          return None;
        }
        cur := objects[cur].value;
        ret := ret + 1;
      }
      UpStep(objects, i, ret - 1);
      FirstHitIs(objects, i, {0}, ret);
      r := Some(ret);
    }

    method TotalNumberOfOrbits() returns (r: Outcome)
      requires Valid()
      ensures r == TotalOrbits(objects)
    {
      var v := Validate();
      if v.Err? {
        return Failed(v.error);
      }
      var ret := 0;
      var i := 1;
      while i < |objects|
        invariant 1 <= i <= |objects|
        invariant DepthSum(objects, i) == Some(ret)
      {
        var c := CountOne(i);
        if c.None? {
          DepthSumStaysNone(objects, i + 1, |objects|);
          return Diverges;
        }
        ret := ret + c.value;
        i := i + 1;
      }
      r := Done(ret);
    }

    /**
     * The first loop of `find_distance_between`: each object on the walk up
     * from `a` with its link count, COM last; a revisited object is a loop.
     */
    method CollectAncestors(a: nat) returns (depth: Option<nat>, aNodes: map<nat, nat>)
      requires Valid() && Linked(objects) && a < |objects|
      ensures depth == Depth(objects, a)
      ensures depth.Some? ==> aNodes == ANodes(objects, a, depth.value + 1)
    {
      var count := 0;
      aNodes := map[];
      var ndx := a;
      while ndx != 0
        invariant count <= |objects|
        invariant ndx == Up(objects, a, count)
        invariant aNodes == ANodes(objects, a, count)
        invariant |aNodes.Keys| == count
        invariant forall k :: 0 <= k < count ==> Up(objects, a, k) != 0
        decreases |objects| - count
      {
        if ndx in aNodes {
          var c := ANodesWitness(objects, a, count, ndx);
          RepeatNeverArrives(objects, a, c, count);
          return None, aNodes;
        }
        AncestorStep(objects, a, count, aNodes);
        aNodes := aNodes[ndx := count];
        ndx := objects[ndx].value;
        count := count + 1;
      }
      FirstHitIs(objects, a, {0}, count);
      aNodes := aNodes[0 := count];
      depth := Some(count);
    }

    /**
     * The second loop: links up from `b` to the first object in `aNodes`.
     * COM is always there, so the walk stops at COM at the latest and the
     * source's test for reaching COM never fires; `None` where it walks for ever.
     */
    method FindCommonParent(b: nat, aNodes: map<nat, nat>) returns (r: Option<nat>)
      requires Valid() && Linked(objects) && b < |objects|
      ensures r == FirstHit(objects, b, aNodes.Keys, 0)
    {
      var bDistance := 0;
      var commonParent := b;
      while commonParent !in aNodes
        invariant bDistance <= |objects|
        invariant commonParent == Up(objects, b, bDistance)
        invariant forall k :: 0 <= k < bDistance ==> Up(objects, b, k) !in aNodes
        decreases |objects| - bDistance
      {
        if bDistance == |objects| {
          return None;
        }
        UpStep(objects, b, bDistance);
        commonParent := objects[commonParent].value;
        bDistance := bDistance + 1;
      }
      FirstHitIs(objects, b, aNodes.Keys, bDistance);
      r := Some(bDistance);
    }

    method FindDistanceBetween(aName: string, bName: string) returns (r: Outcome)
      requires Valid()
      ensures r == Distance(objects, objectNames, aName, bName)
    {
      var v := Validate();
      if v.Err? {
        return Failed(v.error);
      }
      if aName !in objectNames || bName !in objectNames {
        return Failed(NodeNotFound);
      }
      var a := objectNames[aName];
      var b := objectNames[bName];

      var depth, aNodes := CollectAncestors(a);
      if depth.None? {
        return Failed(Loop);
      }
      var meet := FindCommonParent(b, aNodes);
      if meet.None? {
        return Diverges;
      }
      var bDistance := meet.value;
      var commonParent := Up(objects, b, bDistance);
      var total := bDistance + aNodes[commonParent];
      if total < 2 {
        return Panicked;
      }
      r := Done(total - 2);
    }
  }
}
