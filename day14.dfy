/**
 * Day 14 of 2019: the nanofactory's reaction list and the ore needed for one
 * FUEL. The list is parsed into a map from each chemical to the reaction
 * that makes it; the demand then flows from FUEL down a topological order of
 * the chemicals, each needed chemical being made in whole batches and its
 * ingredients added to the demand, until ORE is reached.
 *
 * The topological order is a parameter: the sequence of chemicals the
 * sorter hands out.
 */
module Day14 {
  import opened Common

  /** `num_result` units of `result` from the given amounts of ingredients. */
  datatype Reaction = Reaction(numResult: nat, result: string, ingredients: seq<(nat, string)>)

  // ---------------------------------------------------------------------
  // Parsing
  // ---------------------------------------------------------------------

  /** `parse_quantity`: "<count> <chemical>"; `None` where the source panics. */
  function ParseQuantity(input: string): Option<(nat, string)>
  {
    var split := Split(input, ' ');
    if |split| != 2 then None
    else
      match ParseU64(split[0])
      case None => None
      case Some(n) => Some((n as nat, split[1]))
  }

  /** `.map(parse_quantity).collect()`: every piece must parse. */
  function ParseQuantities(parts: seq<string>): (r: Option<seq<(nat, string)>>)
    ensures r.Some? ==> |r.value| == |parts|
    ensures r.Some? <==> forall i :: 0 <= i < |parts| ==> ParseQuantity(parts[i]).Some?
    ensures r.Some? ==> forall i :: 0 <= i < |parts| ==> Some(r.value[i]) == ParseQuantity(parts[i])
  {
    if |parts| == 0 then Some([])
    else
      match ParseQuantity(parts[0])
      case None => None
      case Some(q) =>
        assert forall j :: 0 <= j < |parts| - 1 ==> parts[1..][j] == parts[j + 1];
        match ParseQuantities(parts[1..])
        case None => None
        case Some(rest) => Some([q] + rest)
  }

  /** One line: "<ingredients> => <result>", the ingredients separated by ", ". */
  function ParseLine(line: string): Option<Reaction>
  {
    var sides := SplitOn(line, " => ");
    if |sides| != 2 then None
    else
      match ParseQuantity(sides[1])
      case None => None
      case Some(result) =>
        match ParseQuantities(SplitOn(sides[0], ", "))
        case None => None
        case Some(ingredients) => Some(Reaction(result.0, result.1, ingredients))
  }

  /** The map after inserting the reaction of each line in turn; a later line for a chemical replaces an earlier one. */
  function RecipesFrom(lines: seq<string>, acc: map<string, Reaction>): Option<map<string, Reaction>>
    decreases |lines|
  {
    if |lines| == 0 then Some(acc)
    else
      match ParseLine(lines[0])
      case None => None
      case Some(r) => RecipesFrom(lines[1..], acc[r.result := r])
  }

  /** Every reaction is filed under the chemical it makes. */
  predicate KeyedByResult(m: map<string, Reaction>)
  {
    forall k :: k in m ==> m[k].result == k
  }

  /** `parse_recipes`. */
  method ParseRecipes(input: string) returns (r: Option<map<string, Reaction>>)
    ensures r == RecipesFrom(Split(input, '\n'), map[])
  {
    var lines := Split(input, '\n');
    var ret: map<string, Reaction> := map[];
    var i := 0;
    while i < |lines|
      invariant 0 <= i <= |lines|
      invariant RecipesFrom(lines, map[]) == RecipesFrom(lines[i..], ret)
    {
      assert lines[i..][1..] == lines[i + 1..];
      var reaction := ParseLine(lines[i]);
      if reaction.None? {
        return None;
      }
      ret := ret[reaction.value.result := reaction.value];
      i := i + 1;
    }
    r := Some(ret);
  }

  /** A parsed list has every line well formed and files each reaction under its result. */
  lemma {:induction false} RecipesKeyed(lines: seq<string>, acc: map<string, Reaction>)
    requires KeyedByResult(acc)
    ensures var r := RecipesFrom(lines, acc);
      r.Some? ==>
        KeyedByResult(r.value) && acc.Keys <= r.value.Keys
        && forall i :: 0 <= i < |lines| ==>
             ParseLine(lines[i]).Some? && ParseLine(lines[i]).value.result in r.value
    decreases |lines|
  {
    if |lines| > 0 && ParseLine(lines[0]).Some? {
      var p := ParseLine(lines[0]).value;
      RecipesKeyed(lines[1..], acc[p.result := p]);
      var r := RecipesFrom(lines, acc);
      if r.Some? {
        forall i | 0 <= i < |lines|
          ensures ParseLine(lines[i]).Some? && ParseLine(lines[i]).value.result in r.value
        {
          if i > 0 {
            assert lines[i] == lines[1..][i - 1];
          }
        }
      }
    }
  }

  // ---------------------------------------------------------------------
  // The text of a reaction list, and parsing it back
  // ---------------------------------------------------------------------

  /** A chemical name that cannot be confused with the separators. */
  predicate IsName(s: string)
  {
    forall i :: 0 <= i < |s| ==> s[i] != ' ' && s[i] != ',' && s[i] != '=' && s[i] != '\n'
  }

  predicate WellFormed(r: Reaction)
  {
    r.numResult <= U64_MAX && IsName(r.result) && |r.ingredients| >= 1
    && forall i :: 0 <= i < |r.ingredients| ==>
         r.ingredients[i].0 <= U64_MAX && IsName(r.ingredients[i].1)
  }

  function QuantityText(q: (nat, string)): string
  {
    ShowNat(q.0) + " " + q.1
  }

  function IngredientTexts(ings: seq<(nat, string)>): (ts: seq<string>)
    ensures |ts| == |ings|
    ensures forall i :: 0 <= i < |ings| ==> ts[i] == QuantityText(ings[i])
  {
    seq(|ings|, i requires 0 <= i < |ings| => QuantityText(ings[i]))
  }

  /** A reaction as the puzzle writes it. */
  function Line(r: Reaction): string
  {
    JoinOn(IngredientTexts(r.ingredients), ", ") + " => " + QuantityText((r.numResult, r.result))
  }

  function Lines(rs: seq<Reaction>): (ls: seq<string>)
    ensures |ls| == |rs|
    ensures forall i :: 0 <= i < |rs| ==> ls[i] == Line(rs[i])
  {
    seq(|rs|, i requires 0 <= i < |rs| => Line(rs[i]))
  }

  /** The map of a list of reactions, inserted in order. */
  function Keyed(rs: seq<Reaction>, acc: map<string, Reaction>): map<string, Reaction>
    decreases |rs|
  {
    if |rs| == 0 then acc else Keyed(rs[1..], acc[rs[0].result := rs[0]])
  }

  /** A character absent from the pieces and the separator is absent from the joined text. */
  lemma {:induction false} JoinOnAvoids(parts: seq<string>, sep: string, c: char)
    requires c !in sep && forall i :: 0 <= i < |parts| ==> c !in parts[i]
    ensures c !in JoinOn(parts, sep)
    decreases |parts|
  {
    if |parts| > 1 {
      JoinOnAvoids(parts[1..], sep, c);
    }
  }

  lemma QuantityTextAvoids(q: (nat, string), c: char)
    requires IsName(q.1) && (c == ',' || c == '=' || c == '\n')
    ensures c !in QuantityText(q)
  {
    var d := ShowNat(q.0);
    assert forall i :: 0 <= i < |d| ==> IsDigit(d[i]);
    var s := QuantityText(q);
    forall i | 0 <= i < |s|
      ensures s[i] != c
    {
      if i < |d| {
        assert s[i] == d[i];
      } else if i > |d| {
        assert s[i] == q.1[i - |d| - 1];
      }
    }
  }

  /** `parse_quantity` reads back a rendered count and name. */
  lemma ParseQuantityText(q: (nat, string))
    requires q.0 <= U64_MAX && IsName(q.1)
    ensures ParseQuantity(QuantityText(q)) == Some(q)
  {
    var d := ShowNat(q.0);
    assert forall i :: 0 <= i < |d| ==> IsDigit(d[i]);
    assert [d, q.1][1..] == [q.1];
    assert Join([d, q.1], ' ') == d + [' '] + q.1 == QuantityText(q);
    SplitJoin([d, q.1], ' ', {' '});
    ParseShow(q.0, false, 0, U64_MAX);
  }

  lemma {:induction false} ParseQuantitiesTexts(ings: seq<(nat, string)>)
    requires forall i :: 0 <= i < |ings| ==> ings[i].0 <= U64_MAX && IsName(ings[i].1)
    ensures ParseQuantities(IngredientTexts(ings)) == Some(ings)
    decreases |ings|
  {
    if |ings| > 0 {
      ParseQuantityText(ings[0]);
      ParseQuantitiesTexts(ings[1..]);
      assert IngredientTexts(ings)[1..] == IngredientTexts(ings[1..]);
      assert [ings[0]] + ings[1..] == ings;
    }
  }

  /** A line reads back as the reaction it renders. */
  lemma ParseLineText(r: Reaction)
    requires WellFormed(r)
    ensures ParseLine(Line(r)) == Some(r)
  {
    var texts := IngredientTexts(r.ingredients);
    var left := JoinOn(texts, ", ");
    var right := QuantityText((r.numResult, r.result));
    forall i | 0 <= i < |texts|
      ensures Unmatched(texts[i], ", ") && '=' !in texts[i]
    {
      QuantityTextAvoids(r.ingredients[i], ',');
      QuantityTextAvoids(r.ingredients[i], '=');
    }
    JoinOnAvoids(texts, ", ", '=');
    QuantityTextAvoids((r.numResult, r.result), '=');
    assert JoinOn([left, right], " => ") == Line(r);
    SplitOnJoin([left, right], " => ");
    SplitOnJoin(texts, ", ");
    ParseQuantityText((r.numResult, r.result));
    ParseQuantitiesTexts(r.ingredients);
  }

  lemma {:induction false} RecipesFromLines(rs: seq<Reaction>, acc: map<string, Reaction>)
    requires forall i :: 0 <= i < |rs| ==> WellFormed(rs[i])
    ensures RecipesFrom(Lines(rs), acc) == Some(Keyed(rs, acc))
    decreases |rs|
  {
    if |rs| > 0 {
      ParseLineText(rs[0]);
      assert Lines(rs)[1..] == Lines(rs[1..]);
      RecipesFromLines(rs[1..], acc[rs[0].result := rs[0]]);
    }
  }

  /** Parsing the text of a list of reactions, one per line, gives the map of the list. */
  lemma ParseRecipesText(rs: seq<Reaction>)
    requires |rs| >= 1 && forall i :: 0 <= i < |rs| ==> WellFormed(rs[i])
    ensures RecipesFrom(Split(Join(Lines(rs), '\n'), '\n'), map[]) == Some(Keyed(rs, map[]))
  {
    var ls := Lines(rs);
    forall i | 0 <= i < |ls|
      ensures '\n' !in ls[i]
    {
      var r := rs[i];
      var texts := IngredientTexts(r.ingredients);
      forall j | 0 <= j < |texts|
        ensures '\n' !in texts[j]
      {
        QuantityTextAvoids(r.ingredients[j], '\n');
      }
      JoinOnAvoids(texts, ", ", '\n');
      QuantityTextAvoids((r.numResult, r.result), '\n');
    }
    SplitJoin(ls, '\n', {'\n'});
    RecipesFromLines(rs, map[]);
  }

  /** The last reaction listed for a chemical is the one filed under it. */
  lemma {:induction false} KeyedFinds(rs: seq<Reaction>, acc: map<string, Reaction>, i: nat)
    requires i < |rs| && forall j :: i < j < |rs| ==> rs[j].result != rs[i].result
    ensures rs[i].result in Keyed(rs, acc) && Keyed(rs, acc)[rs[i].result] == rs[i]
    decreases |rs|
  {
    if i == 0 {
      KeyedKeeps(rs[1..], acc[rs[0].result := rs[0]], rs[0].result);
    } else {
      KeyedFinds(rs[1..], acc[rs[0].result := rs[0]], i - 1);
    }
  }

  /** An entry no later reaction replaces survives. */
  lemma {:induction false} KeyedKeeps(rs: seq<Reaction>, acc: map<string, Reaction>, k: string)
    requires k in acc && forall j :: 0 <= j < |rs| ==> rs[j].result != k
    ensures k in Keyed(rs, acc) && Keyed(rs, acc)[k] == acc[k]
    decreases |rs|
  {
    if |rs| > 0 {
      KeyedKeeps(rs[1..], acc[rs[0].result := rs[0]], k);
    }
  }

  // ---------------------------------------------------------------------
  // The demand for ore
  // ---------------------------------------------------------------------

  /** The outstanding demand for a chemical, 0 when it has none. */
  function Get(q: map<string, nat>, c: string): nat
  {
    if c in q then q[c] else 0
  }

  /**
   * The amount the inner loop settles on: the least multiple of the batch
   * size that covers the demand, and at least one batch.
   */
  function Batch(need: nat, n: nat): (amount: nat)
    requires n > 0
    ensures amount % n == 0 && amount >= n && amount >= need
    ensures amount == n || amount - n < need
  {
    if need <= n then
      DivUnique(n, n, 1, 0);
      n
    else
      var k := (need + n - 1) / n;
      var r := (need + n - 1) % n;
      assert need + n - 1 == n * k + r;
      DivUnique(n * k, n, k, 0);
      n * k
  }

  /** Two multiples of `n` differ by at least `n`. */
  lemma MultipleGap(a: nat, b: nat, n: nat)
    requires n > 0 && a % n == 0 && b % n == 0 && a < b
    ensures a <= b - n
  {
    var p, q := a / n, b / n;
    assert a == n * p && b == n * q;
    assert b - a == n * (q - p);
    PositiveFactor(n, q - p);
    MulAtLeast(n, q - p);
  }

  lemma PositiveFactor(n: nat, k: int)
    requires n * k > 0
    ensures k >= 1
  {
  }

  /** `Batch` is the only amount with its properties. */
  lemma BatchUnique(need: nat, n: nat, amount: nat)
    requires n > 0
    requires amount % n == 0 && amount >= n && amount >= need
    requires amount == n || amount - n < need
    ensures amount == Batch(need, n)
  {
    var b := Batch(need, n);
    if amount < b {
      MultipleGap(amount, b, n);
    } else if b < amount {
      MultipleGap(b, amount, n);
    }
  }

  /** The loop `while reaction_amount < chem_quant { reaction_amount += num_result }`. */
  method BatchAmount(need: nat, n: nat) returns (amount: nat)
    requires n > 0
    ensures amount == Batch(need, n)
  {
    amount := n;
    DivUnique(n, n, 1, 0);
    while amount < need
      invariant amount % n == 0 && amount >= n
      invariant amount == n || amount - n < need
      decreases need - amount
    {
      DivUnique(amount + n, n, amount / n + 1, 0);
      amount := amount + n;
    }
    BatchUnique(need, n, amount);
  }

  /** The demand after adding `times` batches' worth of each ingredient in turn. */
  function Added(q: map<string, nat>, ings: seq<(nat, string)>, times: nat): map<string, nat>
    decreases |ings|
  {
    if |ings| == 0 then q
    else Added(q[ings[0].1 := times * ings[0].0 + Get(q, ings[0].1)], ings[1..], times)
  }

  /** How many units of `c` one batch uses: the amounts of every ingredient entry naming it. */
  function Uses(ings: seq<(nat, string)>, c: string): nat
    decreases |ings|
  {
    if |ings| == 0 then 0
    else (if ings[0].1 == c then ings[0].0 else 0) + Uses(ings[1..], c)
  }

  function Names(ings: seq<(nat, string)>): set<string>
  {
    set i | 0 <= i < |ings| :: ings[i].1
  }

  lemma NamesCons(ings: seq<(nat, string)>)
    requires |ings| > 0
    ensures Names(ings) == {ings[0].1} + Names(ings[1..])
  {
    forall x | x in Names(ings)
      ensures x in {ings[0].1} + Names(ings[1..])
    {
      var i :| 0 <= i < |ings| && ings[i].1 == x;
      if i > 0 {
        assert ings[1..][i - 1].1 == x;
      }
    }
    forall x | x in Names(ings[1..])
      ensures x in Names(ings)
    {
      var i :| 0 <= i < |ings[1..]| && ings[1..][i].1 == x;
      assert ings[i + 1].1 == x;
    }
  }

  /** The demand for each chemical grows by `times` times what one batch uses. */
  lemma {:induction false} AddedDemand(q: map<string, nat>, ings: seq<(nat, string)>, times: nat, c: string)
    ensures Get(Added(q, ings, times), c) == Get(q, c) + times * Uses(ings, c)
    decreases |ings|
  {
    if |ings| > 0 {
      var (num, name) := ings[0];
      var q1 := q[name := times * num + Get(q, name)];
      AddedDemand(q1, ings[1..], times, c);
      var u := if name == c then num else 0;
      DemandStep(q, num, name, times, c);
      Distribute(times, u, Uses(ings[1..], c));
    }
  }

  lemma DemandStep(q: map<string, nat>, num: nat, name: string, times: nat, c: string)
    ensures Get(q[name := times * num + Get(q, name)], c) == Get(q, c) + times * (if name == c then num else 0)
  {
  }

  lemma Distribute(t: nat, a: nat, b: nat)
    ensures t * (a + b) == t * a + t * b
  {
  }

  /** The chemicals with a demand are the old ones and the ingredients. */
  lemma {:induction false} AddedKeys(q: map<string, nat>, ings: seq<(nat, string)>, times: nat)
    ensures Added(q, ings, times).Keys == q.Keys + Names(ings)
    decreases |ings|
  {
    if |ings| > 0 {
      var (num, name) := ings[0];
      AddedKeys(q[name := times * num + Get(q, name)], ings[1..], times);
      NamesCons(ings);
    }
  }

  /** The loop over a reaction's ingredients. */
  method AddIngredients(q: map<string, nat>, ings: seq<(nat, string)>, times: nat) returns (q': map<string, nat>)
    ensures q' == Added(q, ings, times)
  {
    q' := q;
    var i := 0;
    while i < |ings|
      invariant 0 <= i <= |ings|
      invariant Added(q, ings, times) == Added(q', ings[i..], times)
    {
      assert ings[i..][1..] == ings[i + 1..];
      var (num, reagent) := ings[i];
      var total := times * num;
      total := total + Get(q', reagent);
      q' := q'[reagent := total];
      i := i + 1;
    }
  }

  /** Every reaction makes at least one unit; with none the source divides by zero or never ends. */
  predicate PositiveBatches(reactions: map<string, Reaction>)
  {
    forall k :: k in reactions ==> reactions[k].numResult > 0
  }

  /**
   * The demand once the chemicals of `order` have been handed out: a chemical
   * with a demand is made in batches and replaced by its ingredients, one
   * without is skipped, and ORE ends the walk, which must then be over.
   * `None` where the source panics.
   */
  function Process(reactions: map<string, Reaction>, order: seq<string>, q: map<string, nat>): Option<map<string, nat>>
    requires PositiveBatches(reactions)
    decreases |order|
  {
    if |order| == 0 then Some(q)
    else
      var chem := order[0];
      if chem == "ORE" then (if |order| == 1 then Some(q) else None)
      else if chem !in q then Process(reactions, order[1..], q)
      else if chem !in reactions then None
      else
        var reaction := reactions[chem];
        var amount := Batch(q[chem], reaction.numResult);
        Process(reactions, order[1..], Added(q - {chem}, reaction.ingredients, amount / reaction.numResult))
  }

  /** The demand starts as one FUEL; the answer is the ORE demanded at the end. */
  function MinOre(reactions: map<string, Reaction>, order: seq<string>): Option<nat>
    requires PositiveBatches(reactions)
  {
    match Process(reactions, order, map["FUEL" := 1])
    case None => None
    case Some(q) => if "ORE" in q then Some(q["ORE"]) else None
  }

  /** `find_min_ore`, walking the chemicals in the given order. */
  method FindMinOre(reactions: map<string, Reaction>, order: seq<string>) returns (r: Option<nat>)
    requires PositiveBatches(reactions)
    ensures r == MinOre(reactions, order)
  {
    var quantities: map<string, nat> := map["FUEL" := 1];
    var i := 0;
    while i < |order| && order[i] != "ORE"
      invariant 0 <= i <= |order|
      invariant Process(reactions, order, map["FUEL" := 1]) == Process(reactions, order[i..], quantities)
    {
      assert order[i..][1..] == order[i + 1..];
      var chem := order[i];
      if chem in quantities {
        var chemQuant := quantities[chem];
        quantities := quantities - {chem};
        if chem !in reactions {
          return None;
        }
        var reaction := reactions[chem];
        var amount := BatchAmount(chemQuant, reaction.numResult);
        quantities := AddIngredients(quantities, reaction.ingredients, amount / reaction.numResult);
      }
      i := i + 1;
    }
    if i + 1 < |order| {
      return None;
    }
    if "ORE" !in quantities {
      return None;
    }
    r := Some(quantities["ORE"]);
  }

  /** Nothing after ORE is processed: anything still handed out after it is a panic. */
  lemma {:induction false} OreEnds(reactions: map<string, Reaction>, p: seq<string>, rest: seq<string>, q: map<string, nat>)
    requires PositiveBatches(reactions) && "ORE" !in p
    ensures Process(reactions, p + ["ORE"] + rest, q) == if |rest| == 0 then Process(reactions, p, q) else None
    decreases |p|
  {
    var order := p + ["ORE"] + rest;
    if |p| == 0 {
      assert order == ["ORE"] + rest;
    } else {
      assert order[0] == p[0] && order[1..] == p[1..] + ["ORE"] + rest;
      var chem := p[0];
      if chem in q && chem in reactions {
        var reaction := reactions[chem];
        var amount := Batch(q[chem], reaction.numResult);
        OreEnds(reactions, p[1..], rest, Added(q - {chem}, reaction.ingredients, amount / reaction.numResult));
      } else if chem !in q {
        OreEnds(reactions, p[1..], rest, q);
      }
    }
  }

  /** The ORE demand only grows while the other chemicals are worked through. */
  lemma {:induction false} OreOnlyGrows(reactions: map<string, Reaction>, order: seq<string>, q: map<string, nat>)
    requires PositiveBatches(reactions) && "ORE" !in order
    ensures Process(reactions, order, q).Some? ==> Get(Process(reactions, order, q).value, "ORE") >= Get(q, "ORE")
    decreases |order|
  {
    if |order| > 0 {
      var chem := order[0];
      assert chem != "ORE";
      if chem in q && chem in reactions {
        var reaction := reactions[chem];
        var times := Batch(q[chem], reaction.numResult) / reaction.numResult;
        AddedDemand(q - {chem}, reaction.ingredients, times, "ORE");
        assert Get(q - {chem}, "ORE") == Get(q, "ORE");
        OreOnlyGrows(reactions, order[1..], Added(q - {chem}, reaction.ingredients, times));
      } else if chem !in q {
        OreOnlyGrows(reactions, order[1..], q);
      }
    }
  }

  // ---------------------------------------------------------------------
  // The first example
  // ---------------------------------------------------------------------

  /** One step of the walk: a chemical with a demand is replaced by its ingredients. */
  lemma ProcessStep(reactions: map<string, Reaction>, chem: string, rest: seq<string>, q: map<string, nat>, q': map<string, nat>)
    requires PositiveBatches(reactions) && chem != "ORE" && chem in q && chem in reactions
    requires var reaction := reactions[chem];
      q' == Added(q - {chem}, reaction.ingredients, Batch(q[chem], reaction.numResult) / reaction.numResult)
    ensures Process(reactions, [chem] + rest, q) == Process(reactions, rest, q')
  {
    assert ([chem] + rest)[1..] == rest;
  }

  /**
   * 10 ORE => 10 A; 1 ORE => 1 B; 7 A, 1 B => 1 C; 7 A, 1 C => 1 D;
   * 7 A, 1 D => 1 E; 7 A, 1 E => 1 FUEL.
   */
  const SampleMap: map<string, Reaction> := map[
    "A" := Reaction(10, "A", [(10, "ORE")]),
    "B" := Reaction(1, "B", [(1, "ORE")]),
    "C" := Reaction(1, "C", [(7, "A"), (1, "B")]),
    "D" := Reaction(1, "D", [(7, "A"), (1, "C")]),
    "E" := Reaction(1, "E", [(7, "A"), (1, "D")]),
    "FUEL" := Reaction(1, "FUEL", [(7, "A"), (1, "E")])]

  /** The order the sorter hands the chemicals out in: each after everything that uses it. */
  const SampleOrder: seq<string> := ["FUEL", "E", "D", "C", "A", "B", "ORE"]

  lemma SamplePositive()
    ensures PositiveBatches(SampleMap)
  {
  }

  /** A reaction making one unit from 7 `a` and 1 `b`, applied to a demand of one. */
  lemma UnitStep(chem: string, a: string, b: string, rest: seq<string>, aNeed: nat)
    requires chem in SampleMap && SampleMap[chem] == Reaction(1, chem, [(7, a), (1, b)])
    requires a != b && a != chem && b != chem && chem != "ORE"
    ensures PositiveBatches(SampleMap)
    ensures Process(SampleMap, [chem] + rest, map[a := aNeed, chem := 1])
         == Process(SampleMap, rest, map[a := aNeed + 7, b := 1])
  {
    SamplePositive();
    var q := map[a := aNeed, chem := 1];
    assert q - {chem} == map[a := aNeed];
    var ings: seq<(nat, string)> := [(7, a), (1, b)];
    assert ings[1..][1..] == [];
    assert Added(map[a := aNeed], ings, 1) == map[a := aNeed][a := 7 + aNeed][b := 1 + 0];
    ProcessStep(SampleMap, chem, rest, q, map[a := aNeed + 7, b := 1]);
  }

  lemma SampleFuelStep()
    ensures PositiveBatches(SampleMap)
    ensures Process(SampleMap, SampleOrder, map["FUEL" := 1])
         == Process(SampleMap, ["E", "D", "C", "A", "B", "ORE"], map["A" := 7, "E" := 1])
  {
    SamplePositive();
    assert Added(map["FUEL" := 1] - {"FUEL"}, [(7, "A"), (1, "E")], Batch(1, 1) / 1) == map["A" := 7, "E" := 1] by {
      assert map["FUEL" := 1] - {"FUEL"} == map[];
      var ings: seq<(nat, string)> := [(7, "A"), (1, "E")];
      assert ings[1..][1..] == [];
      assert Added(map[], ings, 1) == map[]["A" := 7 + 0]["E" := 1 + 0];
    }
    var rest: seq<string> := ["E", "D", "C", "A", "B", "ORE"];
    assert SampleOrder == ["FUEL"] + rest;
    ProcessStep(SampleMap, "FUEL", rest, map["FUEL" := 1], map["A" := 7, "E" := 1]);
  }

  lemma SampleUnitSteps()
    ensures PositiveBatches(SampleMap)
    ensures Process(SampleMap, ["E", "D", "C", "A", "B", "ORE"], map["A" := 7, "E" := 1])
         == Process(SampleMap, ["A", "B", "ORE"], map["A" := 28, "B" := 1])
  {
    SamplePositive();
    var r3: seq<string> := ["A", "B", "ORE"];
    var r2 := ["C"] + r3;
    var r1 := ["D"] + r2;
    assert ["E"] + r1 == ["E", "D", "C", "A", "B", "ORE"];
    UnitStep("E", "A", "D", r1, 7);
    UnitStep("D", "A", "C", r2, 14);
    UnitStep("C", "A", "B", r3, 21);
  }

  lemma SampleOreSteps()
    ensures PositiveBatches(SampleMap)
    ensures Process(SampleMap, ["A", "B", "ORE"], map["A" := 28, "B" := 1]) == Some(map["ORE" := 31])
  {
    SamplePositive();
    var q4 := map["A" := 28, "B" := 1];
    var q5 := map["B" := 1, "ORE" := 30];
    var q6 := map["ORE" := 31];
    assert Batch(28, 10) == 30 by {
      BatchUnique(28, 10, 30);
    }
    assert Added(q4 - {"A"}, [(10, "ORE")], Batch(28, 10) / 10) == q5 by {
      assert q4 - {"A"} == map["B" := 1];
      assert Added(map["B" := 1], [(10, "ORE")], 3) == map["B" := 1]["ORE" := 3 * 10 + 0];
    }
    var r5: seq<string> := ["ORE"];
    var r4 := ["B"] + r5;
    assert ["A"] + r4 == ["A", "B", "ORE"];
    ProcessStep(SampleMap, "A", r4, q4, q5);
    assert Added(q5 - {"B"}, [(1, "ORE")], Batch(1, 1) / 1) == q6 by {
      assert q5 - {"B"} == map["ORE" := 30];
      assert Added(map["ORE" := 30], [(1, "ORE")], 1) == map["ORE" := 30]["ORE" := 1 * 1 + 30];
    }
    ProcessStep(SampleMap, "B", r5, q5, q6);
  }

  /** One FUEL needs 31 ORE: 28 A take three batches of 10 A (30 ORE) and one B takes 1 ORE. */
  lemma SampleMinOre()
    ensures PositiveBatches(SampleMap)
    ensures MinOre(SampleMap, SampleOrder) == Some(31)
  {
    SampleFuelStep();
    SampleUnitSteps();
    SampleOreSteps();
  }
}
