/**
 * The deficit computation of Goal.UpdateResourceAmounts, stage by stage, as
 * functions of the goal's parts, the map snapshot, the thing registry and the
 * recipe database. Every stage is a left fold over a dictionary's enumeration
 * order, the order in which the source's foreach loops visit the entries.
 * Stands for the body of the instance method UpdateResourceAmounts of the class
 * Goal; the loops themselves are the methods of the module Goals.
 */
module CostAggregator {

  import opened Wrappers
  import opened Defs
  import opened Counts
  import opened StockCounter
  import opened Recipes

  // ---------------------------------------------------------------------------
  // Stage 1: the parts still missing

  /** What CountAll(map, parts.Keys, false, true) returns. */
  function CountedParts(world: MapSnapshot, registry: ThingRegistry, parts: ThingCounts): map<ThingDef, int>
  {
    map t | t in parts.order :: StockOf(world, registry, t, false, true)
  }

  /** remainingParts after the parts loop has visited `keys`. */
  function RemainingOver(keys: seq<ThingDef>, parts: ThingCounts, counted: map<ThingDef, int>): (r: ThingCounts)
  {
    if |keys| == 0 then Empty
    else
      var p := keys[|keys| - 1];
      assert Distinct(keys) ==> Distinct(keys[..|keys| - 1]);
      Put(RemainingOver(keys[..|keys| - 1], parts, counted), p, Max(TryGet(parts, p) - GetOrZero(counted, p), 0))
  }

  function RemainingParts(parts: ThingCounts, counted: map<ThingDef, int>): ThingCounts
  {
    RemainingOver(parts.order, parts, counted)
  }

  /** Each visited part is left with its target less what is counted, a
      missing count read as 0, and never below 0; nothing else gets an entry. */
  lemma {:induction false} RemainingOverValue(keys: seq<ThingDef>, parts: ThingCounts, counted: map<ThingDef, int>, p: ThingDef)
    ensures var r := RemainingOver(keys, parts, counted);
            (p in r.amounts <==> p in keys) &&
            TryGet(r, p) == if p in keys then Max(TryGet(parts, p) - GetOrZero(counted, p), 0) else 0
  {
    if |keys| > 0 {
      var prefix := keys[..|keys| - 1];
      assert keys == prefix + [keys[|keys| - 1]];
      RemainingOverValue(prefix, parts, counted, p);
    }
  }

  /** Distinct parts keep their enumeration order. */
  lemma {:induction false} RemainingOverOrder(keys: seq<ThingDef>, parts: ThingCounts, counted: map<ThingDef, int>)
    requires Distinct(keys)
    ensures RemainingOver(keys, parts, counted).order == keys
  {
    if |keys| > 0 {
      var prefix, last := keys[..|keys| - 1], keys[|keys| - 1];
      assert Distinct(prefix) by {
        forall i, j | 0 <= i < j < |prefix| ensures prefix[i] != prefix[j] {
          assert prefix[i] == keys[i] && prefix[j] == keys[j];
        }
      }
      assert last !in prefix by {
        forall k | 0 <= k < |prefix| ensures prefix[k] != last {
          assert prefix[k] == keys[k];
        }
      }
      RemainingOverOrder(prefix, parts, counted);
      RemainingOverValue(prefix, parts, counted, last);
      assert keys == prefix + [last];
    }
  }

  /** Each part keeps its place and is left with its target less what is
      counted, a missing count read as 0, and never below 0. */
  lemma RemainingPartsValues(parts: ThingCounts, counted: map<ThingDef, int>)
    requires WellFormed(parts)
    ensures var r := RemainingParts(parts, counted);
            r.order == parts.order && r.amounts.Keys == parts.amounts.Keys &&
            forall p :: p in parts.amounts ==> r.amounts[p] == Max(parts.amounts[p] - GetOrZero(counted, p), 0)
  {
    RemainingOverOrder(parts.order, parts, counted);
    forall p
      ensures var r := RemainingParts(parts, counted);
              (p in r.amounts <==> p in parts.amounts) &&
              (p in parts.amounts ==> r.amounts[p] == Max(parts.amounts[p] - GetOrZero(counted, p), 0))
    {
      RemainingOverValue(parts.order, parts, counted, p);
    }
  }

  // ---------------------------------------------------------------------------
  // Stage 2: the direct build cost

  /** Adds `amount` times each entry of `list` onto `costs`, entry by entry. */
  function AddCostList(costs: ThingCounts, amount: int, list: seq<ThingDefCount>): (r: ThingCounts)
  {
    if |list| == 0 then costs
    else
      var prev := AddCostList(costs, amount, list[..|list| - 1]);
      var c := list[|list| - 1];
      Put(prev, c.thingDef, TryGet(prev, c.thingDef) + amount * c.count)
  }

  /** `costs` after the outer loop has visited the parts `keys`. */
  function CostsOver(keys: seq<ThingDef>, remaining: ThingCounts, registry: ThingRegistry): (r: ThingCounts)
  {
    if |keys| == 0 then Empty
    else
      var p := keys[|keys| - 1];
      AddCostList(CostsOver(keys[..|keys| - 1], remaining, registry), TryGet(remaining, p), CostList(registry, p))
  }

  function DirectCosts(remaining: ThingCounts, registry: ThingRegistry): ThingCounts
  {
    CostsOver(remaining.order, remaining, registry)
  }

  /** The reference total: the sum over the parts of remaining times the part's
      cost count of `t`. */
  function PartsCostSum(keys: seq<ThingDef>, remaining: ThingCounts, registry: ThingRegistry, t: ThingDef): int
  {
    if |keys| == 0 then 0
    else
      var p := keys[|keys| - 1];
      PartsCostSum(keys[..|keys| - 1], remaining, registry, t) + TryGet(remaining, p) * CountIn(CostList(registry, p), t)
  }

  /** Some part among `keys` lists `t` in its cost list. */
  ghost predicate InSomeCostList(keys: seq<ThingDef>, registry: ThingRegistry, t: ThingDef)
  {
    exists k :: 0 <= k < |keys| && Mentions(CostList(registry, keys[k]), t)
  }

  lemma MentionsSnoc(list: seq<ThingDefCount>, t: ThingDef)
    requires |list| > 0
    ensures Mentions(list, t) <==> Mentions(list[..|list| - 1], t) || list[|list| - 1].thingDef == t
  {
    if Mentions(list[..|list| - 1], t) {
      var k :| 0 <= k < |list| - 1 && list[..|list| - 1][k].thingDef == t;
      assert list[k].thingDef == t;
    }
    if Mentions(list, t) && list[|list| - 1].thingDef != t {
      var k :| 0 <= k < |list| && list[k].thingDef == t;
      assert list[..|list| - 1][k].thingDef == t;
    }
  }

  lemma MulAddDistributes(a: int, x: int, y: int)
    ensures a * (x + y) == a * x + a * y
  {
  }

  lemma {:induction false} AddCostListValues(costs: ThingCounts, amount: int, list: seq<ThingDefCount>, t: ThingDef)
    ensures var r := AddCostList(costs, amount, list);
            TryGet(r, t) == TryGet(costs, t) + amount * CountIn(list, t) &&
            (t in r.amounts <==> t in costs.amounts || Mentions(list, t))
  {
    if |list| > 0 {
      var prefix := list[..|list| - 1];
      var c := list[|list| - 1];
      AddCostListValues(costs, amount, prefix, t);
      MentionsSnoc(list, t);
      if c.thingDef == t {
        MulAddDistributes(amount, CountIn(prefix, t), c.count);
      }
    }
  }

  /** costs[t] is the sum over the parts of remaining[p] times p's cost count of t. */
  lemma {:induction false} CostsOverSum(keys: seq<ThingDef>, remaining: ThingCounts, registry: ThingRegistry, t: ThingDef)
    ensures TryGet(CostsOver(keys, remaining, registry), t) == PartsCostSum(keys, remaining, registry, t)
  {
    if |keys| > 0 {
      var prefix := keys[..|keys| - 1];
      var p := keys[|keys| - 1];
      CostsOverSum(prefix, remaining, registry, t);
      AddCostListValues(CostsOver(prefix, remaining, registry), TryGet(remaining, p), CostList(registry, p), t);
    }
  }

  lemma InSomeCostListSnoc(keys: seq<ThingDef>, registry: ThingRegistry, t: ThingDef)
    requires |keys| > 0
    ensures InSomeCostList(keys, registry, t) <==>
            InSomeCostList(keys[..|keys| - 1], registry, t) || Mentions(CostList(registry, keys[|keys| - 1]), t)
  {
    var prefix := keys[..|keys| - 1];
    if InSomeCostList(prefix, registry, t) {
      var k :| 0 <= k < |prefix| && Mentions(CostList(registry, prefix[k]), t);
      assert keys[k] == prefix[k];
    }
    if InSomeCostList(keys, registry, t) && !Mentions(CostList(registry, keys[|keys| - 1]), t) {
      var k :| 0 <= k < |keys| && Mentions(CostList(registry, keys[k]), t);
      assert k < |prefix| && prefix[k] == keys[k];
    }
  }

  /** t has an entry in costs exactly when some part's cost list names it, even
      when that part has nothing remaining. */
  lemma {:induction false} CostsOverKeys(keys: seq<ThingDef>, remaining: ThingCounts, registry: ThingRegistry, t: ThingDef)
    ensures t in CostsOver(keys, remaining, registry).amounts <==> InSomeCostList(keys, registry, t)
  {
    if |keys| > 0 {
      var prefix := keys[..|keys| - 1];
      var p := keys[|keys| - 1];
      CostsOverKeys(prefix, remaining, registry, t);
      AddCostListValues(CostsOver(prefix, remaining, registry), TryGet(remaining, p), CostList(registry, p), t);
      InSomeCostListSnoc(keys, registry, t);
    }
  }

  // ---------------------------------------------------------------------------
  // Stage 3 (as written): one expansion level that overwrites

  /** The still-missing portion of `item` that gets expanded. */
  function CostCount(costs: ThingCounts, world: MapSnapshot, item: ThingDef): int
  {
    Max(TryGet(costs, item) - GetCount(world, item), 0)
  }

  /** The inner loop of the expansion: each ingredient is SET to its direct
      cost plus `costCount` times its per-unit count. */
  function WriteIngredients(deep: ThingCounts, costs: ThingCounts, costCount: int, list: seq<ThingDefCount>): (r: ThingCounts)
  {
    if |list| == 0 then deep
    else
      var c := list[|list| - 1];
      Put(WriteIngredients(deep, costs, costCount, list[..|list| - 1]), c.thingDef, TryGet(costs, c.thingDef) + costCount * c.count)
  }

  /** One iteration of the expansion loop: an item with no recipe is skipped. */
  function ExpandItem(deep: ThingCounts, costs: ThingCounts, world: MapSnapshot, allDefs: seq<RecipeDef>, item: ThingDef): (r: ThingCounts)
  {
    match IngredientsFor(allDefs, item)
    case None => deep
    case Some(list) => WriteIngredients(deep, costs, CostCount(costs, world, item), list)
  }

  /** deepCosts, a copy of `costs`, after the expansion loop has visited `keys`. */
  function ExpandOver(keys: seq<ThingDef>, costs: ThingCounts, world: MapSnapshot, allDefs: seq<RecipeDef>): (r: ThingCounts)
  {
    if |keys| == 0 then costs
    else ExpandItem(ExpandOver(keys[..|keys| - 1], costs, world, allDefs), costs, world, allDefs, keys[|keys| - 1])
  }

  function DeepCosts(costs: ThingCounts, world: MapSnapshot, allDefs: seq<RecipeDef>): ThingCounts
  {
    ExpandOver(costs.order, costs, world, allDefs)
  }

  /** The value expanding `item` leaves for `sub`, if its ingredients name `sub`:
      the last write of the inner loop. */
  function WrittenBy(costs: ThingCounts, world: MapSnapshot, allDefs: seq<RecipeDef>, item: ThingDef, sub: ThingDef): Option<int>
  {
    match IngredientsFor(allDefs, item)
    case None => None
    case Some(list) =>
      if Mentions(list, sub) then Some(TryGet(costs, sub) + CostCount(costs, world, item) * LastCountOf(list, sub)) else None
  }

  /** The write for `sub` by the LAST item among `keys` that writes it. */
  function LastWrite(keys: seq<ThingDef>, costs: ThingCounts, world: MapSnapshot, allDefs: seq<RecipeDef>, sub: ThingDef): Option<int>
  {
    if |keys| == 0 then None
    else
      match WrittenBy(costs, world, allDefs, keys[|keys| - 1], sub)
      case Some(v) => Some(v)
      case None => LastWrite(keys[..|keys| - 1], costs, world, allDefs, sub)
  }

  lemma {:induction false} WriteIngredientsValues(deep: ThingCounts, costs: ThingCounts, costCount: int, list: seq<ThingDefCount>, sub: ThingDef)
    ensures var r := WriteIngredients(deep, costs, costCount, list);
            TryGet(r, sub) == (if Mentions(list, sub) then TryGet(costs, sub) + costCount * LastCountOf(list, sub) else TryGet(deep, sub)) &&
            (sub in r.amounts <==> sub in deep.amounts || Mentions(list, sub))
  {
    if |list| > 0 {
      MentionsSnoc(list, sub);
      WriteIngredientsValues(deep, costs, costCount, list[..|list| - 1], sub);
    }
  }

  /** The expansion keeps, for each sub-ingredient, only the write of the last
      intermediate (in enumeration order) whose ingredients name it; earlier
      writes are discarded rather than added. Untouched entries keep their
      direct cost, and the keys are the direct cost keys plus the written ones. */
  lemma {:induction false} ExpandOverLastWriteWins(keys: seq<ThingDef>, costs: ThingCounts, world: MapSnapshot, allDefs: seq<RecipeDef>, sub: ThingDef)
    ensures var r := ExpandOver(keys, costs, world, allDefs);
            var w := LastWrite(keys, costs, world, allDefs, sub);
            TryGet(r, sub) == (if w.Some? then w.value else TryGet(costs, sub)) &&
            (sub in r.amounts <==> sub in costs.amounts || w.Some?)
  {
    if |keys| > 0 {
      var prefix := keys[..|keys| - 1];
      ExpandOverLastWriteWins(prefix, costs, world, allDefs, sub);
      var item := keys[|keys| - 1];
      match IngredientsFor(allDefs, item)
      case None =>
      case Some(list) =>
        WriteIngredientsValues(ExpandOver(prefix, costs, world, allDefs), costs, CostCount(costs, world, item), list, sub);
    }
  }

  /** Consequence: once a later intermediate writes a sub-ingredient, what an
      earlier intermediate contributed to it is gone. */
  lemma LaterIntermediateOverwrites(keys: seq<ThingDef>, costs: ThingCounts, world: MapSnapshot, allDefs: seq<RecipeDef>, sub: ThingDef, list: seq<ThingDefCount>)
    requires |keys| > 0
    requires IngredientsFor(allDefs, keys[|keys| - 1]) == Some(list) && Mentions(list, sub)
    ensures TryGet(ExpandOver(keys, costs, world, allDefs), sub) ==
            TryGet(costs, sub) + CostCount(costs, world, keys[|keys| - 1]) * LastCountOf(list, sub)
  {
    ExpandOverLastWriteWins(keys, costs, world, allDefs, sub);
  }

  // ---------------------------------------------------------------------------
  // Stage 3 (accumulating alternative): adds onto the running total

  /** The expansion with line 106's base changed to the running deepCosts
      value, so that shared sub-ingredients add up. */
  function AccumulateOver(keys: seq<ThingDef>, costs: ThingCounts, world: MapSnapshot, allDefs: seq<RecipeDef>): (r: ThingCounts)
  {
    if |keys| == 0 then costs
    else
      var prev := AccumulateOver(keys[..|keys| - 1], costs, world, allDefs);
      var item := keys[|keys| - 1];
      match IngredientsFor(allDefs, item)
      case None => prev
      case Some(list) => AddCostList(prev, CostCount(costs, world, item), list)
  }

  /** The reference deep total: the sum over the expanded intermediates of their
      missing portion times their per-unit count of `sub`. */
  function DeepSum(keys: seq<ThingDef>, costs: ThingCounts, world: MapSnapshot, allDefs: seq<RecipeDef>, sub: ThingDef): int
  {
    if |keys| == 0 then 0
    else
      var item := keys[|keys| - 1];
      DeepSum(keys[..|keys| - 1], costs, world, allDefs, sub) +
      match IngredientsFor(allDefs, item)
      case None => 0
      case Some(list) => CostCount(costs, world, item) * CountIn(list, sub)
  }

  lemma {:induction false} AccumulateOverIsDeepSum(keys: seq<ThingDef>, costs: ThingCounts, world: MapSnapshot, allDefs: seq<RecipeDef>, sub: ThingDef)
    ensures TryGet(AccumulateOver(keys, costs, world, allDefs), sub) == TryGet(costs, sub) + DeepSum(keys, costs, world, allDefs, sub)
  {
    if |keys| > 0 {
      var prefix := keys[..|keys| - 1];
      AccumulateOverIsDeepSum(prefix, costs, world, allDefs, sub);
      var item := keys[|keys| - 1];
      match IngredientsFor(allDefs, item)
      case None =>
      case Some(list) =>
        AddCostListValues(AccumulateOver(prefix, costs, world, allDefs), CostCount(costs, world, item), list, sub);
    }
  }

  // ---------------------------------------------------------------------------
  // Stage 4: the final clamp, and the whole computation

  /** The final copy of deepCosts: every entry less what the resource counter
      holds of its thing, never below 0, with the keys in the same order. */
  function Clamp(deep: ThingCounts, world: MapSnapshot): (r: ThingCounts)
    ensures r.order == deep.order && r.amounts.Keys == deep.amounts.Keys
    ensures forall k :: k in r.amounts ==> r.amounts[k] >= 0
    ensures forall k :: k in r.amounts ==> (r.amounts[k] == 0 <==> deep.amounts[k] <= GetCount(world, k))
    ensures forall k :: k in r.amounts && r.amounts[k] > 0 ==> r.amounts[k] + GetCount(world, k) == deep.amounts[k]
  {
    ThingCounts(deep.order, map k | k in deep.amounts :: Max(deep.amounts[k] - GetCount(world, k), 0))
  }

  /** The resourceAmounts UpdateResourceAmounts leaves: never negative, and a
      dictionary with each key listed once. */
  function Deficit(parts: ThingCounts, world: MapSnapshot, registry: ThingRegistry, allDefs: seq<RecipeDef>): (r: ThingCounts)
    ensures forall k :: k in r.amounts ==> r.amounts[k] >= 0
  {
    var remaining := RemainingParts(parts, CountedParts(world, registry, parts));
    var costs := DirectCosts(remaining, registry);
    Clamp(DeepCosts(costs, world, allDefs), world)
  }

  // ---------------------------------------------------------------------------
  // Every stage leaves a dictionary with each key listed once

  lemma {:induction false} AddCostListWellFormed(costs: ThingCounts, amount: int, list: seq<ThingDefCount>)
    requires WellFormed(costs)
    ensures WellFormed(AddCostList(costs, amount, list))
  {
    if |list| > 0 {
      var prev := AddCostList(costs, amount, list[..|list| - 1]);
      AddCostListWellFormed(costs, amount, list[..|list| - 1]);
      var c := list[|list| - 1];
      PutWellFormed(prev, c.thingDef, TryGet(prev, c.thingDef) + amount * c.count);
    }
  }

  lemma {:induction false} CostsOverWellFormed(keys: seq<ThingDef>, remaining: ThingCounts, registry: ThingRegistry)
    ensures WellFormed(CostsOver(keys, remaining, registry))
  {
    if |keys| > 0 {
      var p := keys[|keys| - 1];
      CostsOverWellFormed(keys[..|keys| - 1], remaining, registry);
      AddCostListWellFormed(CostsOver(keys[..|keys| - 1], remaining, registry), TryGet(remaining, p), CostList(registry, p));
    }
  }

  lemma {:induction false} WriteIngredientsWellFormed(deep: ThingCounts, costs: ThingCounts, costCount: int, list: seq<ThingDefCount>)
    requires WellFormed(deep)
    ensures WellFormed(WriteIngredients(deep, costs, costCount, list))
  {
    if |list| > 0 {
      var c := list[|list| - 1];
      WriteIngredientsWellFormed(deep, costs, costCount, list[..|list| - 1]);
      PutWellFormed(WriteIngredients(deep, costs, costCount, list[..|list| - 1]), c.thingDef, TryGet(costs, c.thingDef) + costCount * c.count);
    }
  }

  lemma {:induction false} ExpandOverWellFormed(keys: seq<ThingDef>, costs: ThingCounts, world: MapSnapshot, allDefs: seq<RecipeDef>)
    requires WellFormed(costs)
    ensures WellFormed(ExpandOver(keys, costs, world, allDefs))
  {
    if |keys| > 0 {
      var item := keys[|keys| - 1];
      var prev := ExpandOver(keys[..|keys| - 1], costs, world, allDefs);
      ExpandOverWellFormed(keys[..|keys| - 1], costs, world, allDefs);
      match IngredientsFor(allDefs, item)
      case None =>
      case Some(list) => WriteIngredientsWellFormed(prev, costs, CostCount(costs, world, item), list);
    }
  }

  /** The resourceAmounts dictionary lists each of its keys exactly once. */
  lemma DeficitWellFormed(parts: ThingCounts, world: MapSnapshot, registry: ThingRegistry, allDefs: seq<RecipeDef>)
    ensures WellFormed(Deficit(parts, world, registry, allDefs))
  {
    var remaining := RemainingParts(parts, CountedParts(world, registry, parts));
    var costs := DirectCosts(remaining, registry);
    CostsOverWellFormed(remaining.order, remaining, registry);
    ExpandOverWellFormed(costs.order, costs, world, allDefs);
  }

  // ---------------------------------------------------------------------------
  // The enumeration order of each stage's dictionary

  /** The thing kinds the cost lists of the parts `keys` name, part by part. */
  function CostNames(keys: seq<ThingDef>, registry: ThingRegistry): seq<ThingDef>
  {
    if |keys| == 0 then []
    else CostNames(keys[..|keys| - 1], registry) + Names(CostList(registry, keys[|keys| - 1]))
  }

  /** The thing kinds the flattened ingredients of the items `keys` name, item
      by item; an item no recipe produces names none. */
  function IngredientNames(keys: seq<ThingDef>, allDefs: seq<RecipeDef>): seq<ThingDef>
  {
    if |keys| == 0 then []
    else
      var rest := IngredientNames(keys[..|keys| - 1], allDefs);
      match IngredientsFor(allDefs, keys[|keys| - 1])
      case None => rest
      case Some(list) => rest + Names(list)
  }

  /** Adding a cost list appends the things it names that are not yet keys, in
      the order the list first names them. */
  lemma {:induction false} AddCostListOrder(costs: ThingCounts, amount: int, list: seq<ThingDefCount>)
    requires WellFormed(costs)
    ensures AddCostList(costs, amount, list).order == AppendNew(costs.order, Names(list))
  {
    if |list| > 0 {
      var prefix := list[..|list| - 1];
      var c := list[|list| - 1];
      AddCostListOrder(costs, amount, prefix);
      AddCostListWellFormed(costs, amount, prefix);
      var prev := AddCostList(costs, amount, prefix);
      PutWellFormed(prev, c.thingDef, TryGet(prev, c.thingDef) + amount * c.count);
      assert Names(list)[..|list| - 1] == Names(prefix);
    }
  }

  /** costs enumerates the things of the parts' cost lists in the order in
      which the nested loops first write them. */
  lemma {:induction false} CostsOverOrder(keys: seq<ThingDef>, remaining: ThingCounts, registry: ThingRegistry)
    ensures CostsOver(keys, remaining, registry).order == AppendNew([], CostNames(keys, registry))
  {
    if |keys| > 0 {
      var prefix := keys[..|keys| - 1];
      var p := keys[|keys| - 1];
      CostsOverOrder(prefix, remaining, registry);
      CostsOverWellFormed(prefix, remaining, registry);
      AddCostListOrder(CostsOver(prefix, remaining, registry), TryGet(remaining, p), CostList(registry, p));
      AppendNewAppend([], CostNames(prefix, registry), Names(CostList(registry, p)));
    }
  }

  /** One intermediate's writes append the ingredients that are not yet keys. */
  lemma {:induction false} WriteIngredientsOrder(deep: ThingCounts, costs: ThingCounts, costCount: int, list: seq<ThingDefCount>)
    requires WellFormed(deep)
    ensures WriteIngredients(deep, costs, costCount, list).order == AppendNew(deep.order, Names(list))
  {
    if |list| > 0 {
      var prefix := list[..|list| - 1];
      var c := list[|list| - 1];
      WriteIngredientsOrder(deep, costs, costCount, prefix);
      WriteIngredientsWellFormed(deep, costs, costCount, prefix);
      PutWellFormed(WriteIngredients(deep, costs, costCount, prefix), c.thingDef, TryGet(costs, c.thingDef) + costCount * c.count);
      assert Names(list)[..|list| - 1] == Names(prefix);
    }
  }

  /** deepCosts enumerates the keys of costs in their order, then the
      ingredients not among them in the order the expansion first writes them. */
  lemma {:induction false} ExpandOverOrder(keys: seq<ThingDef>, costs: ThingCounts, world: MapSnapshot, allDefs: seq<RecipeDef>)
    requires WellFormed(costs)
    ensures ExpandOver(keys, costs, world, allDefs).order == AppendNew(costs.order, IngredientNames(keys, allDefs))
  {
    if |keys| > 0 {
      var prefix := keys[..|keys| - 1];
      var item := keys[|keys| - 1];
      var prev := ExpandOver(prefix, costs, world, allDefs);
      ExpandOverOrder(prefix, costs, world, allDefs);
      ExpandOverWellFormed(prefix, costs, world, allDefs);
      match IngredientsFor(allDefs, item)
      case None =>
      case Some(list) =>
        WriteIngredientsOrder(prev, costs, CostCount(costs, world, item), list);
        AppendNewAppend(costs.order, IngredientNames(prefix, allDefs), Names(list));
    }
  }

  /** The expansion never moves a key of costs: their order is a prefix of
      deepCosts' order. */
  lemma ExpandOverKeepsCostOrder(keys: seq<ThingDef>, costs: ThingCounts, world: MapSnapshot, allDefs: seq<RecipeDef>)
    requires WellFormed(costs)
    ensures costs.order <= ExpandOver(keys, costs, world, allDefs).order
  {
    ExpandOverOrder(keys, costs, world, allDefs);
    AppendNewPrefix(costs.order, IngredientNames(keys, allDefs));
  }

  /** The order of resourceAmounts, which the readout lists, depends only on
      the goal's parts, the cost lists and the recipes, not on the map: the
      direct cost things as the parts' cost lists first name them, then the
      ingredients as the expansion of those first names them. */
  lemma DeficitOrder(parts: ThingCounts, world: MapSnapshot, registry: ThingRegistry, allDefs: seq<RecipeDef>)
    requires WellFormed(parts)
    ensures var direct := AppendNew([], CostNames(parts.order, registry));
            Deficit(parts, world, registry, allDefs).order == AppendNew(direct, IngredientNames(direct, allDefs))
  {
    var remaining := RemainingParts(parts, CountedParts(world, registry, parts));
    RemainingOverOrder(parts.order, parts, CountedParts(world, registry, parts));
    CostsOverOrder(remaining.order, remaining, registry);
    var costs := DirectCosts(remaining, registry);
    CostsOverWellFormed(remaining.order, remaining, registry);
    ExpandOverOrder(costs.order, costs, world, allDefs);
  }

  // ---------------------------------------------------------------------------
  // One more iteration of each loop: the folds over a one-longer prefix

  lemma RemainingOverStep(keys: seq<ThingDef>, i: nat, parts: ThingCounts, counted: map<ThingDef, int>)
    requires i < |keys|
    ensures RemainingOver(keys[..i + 1], parts, counted) ==
            Put(RemainingOver(keys[..i], parts, counted), keys[i], Max(TryGet(parts, keys[i]) - GetOrZero(counted, keys[i]), 0))
  {
    assert keys[..i + 1][..i] == keys[..i];
  }

  lemma AddCostListStep(costs: ThingCounts, amount: int, list: seq<ThingDefCount>, j: nat)
    requires j < |list|
    ensures AddCostList(costs, amount, list[..j + 1]) ==
            Put(AddCostList(costs, amount, list[..j]), list[j].thingDef, TryGet(AddCostList(costs, amount, list[..j]), list[j].thingDef) + amount * list[j].count)
  {
    assert list[..j + 1][..j] == list[..j];
  }

  lemma CostsOverStep(keys: seq<ThingDef>, i: nat, remaining: ThingCounts, registry: ThingRegistry)
    requires i < |keys|
    ensures CostsOver(keys[..i + 1], remaining, registry) ==
            AddCostList(CostsOver(keys[..i], remaining, registry), TryGet(remaining, keys[i]), CostList(registry, keys[i]))
  {
    assert keys[..i + 1][..i] == keys[..i];
  }

  lemma WriteIngredientsStep(deep: ThingCounts, costs: ThingCounts, costCount: int, list: seq<ThingDefCount>, j: nat)
    requires j < |list|
    ensures WriteIngredients(deep, costs, costCount, list[..j + 1]) ==
            Put(WriteIngredients(deep, costs, costCount, list[..j]), list[j].thingDef, TryGet(costs, list[j].thingDef) + costCount * list[j].count)
  {
    assert list[..j + 1][..j] == list[..j];
  }

  lemma ExpandOverStep(keys: seq<ThingDef>, i: nat, costs: ThingCounts, world: MapSnapshot, allDefs: seq<RecipeDef>)
    requires i < |keys|
    ensures ExpandOver(keys[..i + 1], costs, world, allDefs) ==
            ExpandItem(ExpandOver(keys[..i], costs, world, allDefs), costs, world, allDefs, keys[i])
  {
    assert keys[..i + 1][..i] == keys[..i];
  }

  // ---------------------------------------------------------------------------
  // A satisfied goal leaves nothing to do

  lemma {:induction false} RemainingOverZero(keys: seq<ThingDef>, parts: ThingCounts, counted: map<ThingDef, int>)
    requires forall p :: p in keys ==> TryGet(parts, p) <= GetOrZero(counted, p)
    ensures AllZero(RemainingOver(keys, parts, counted))
  {
    if |keys| > 0 {
      RemainingOverZero(keys[..|keys| - 1], parts, counted);
    }
  }

  lemma {:induction false} AddCostListZero(costs: ThingCounts, list: seq<ThingDefCount>)
    requires AllZero(costs)
    ensures AllZero(AddCostList(costs, 0, list))
  {
    if |list| > 0 {
      AddCostListZero(costs, list[..|list| - 1]);
    }
  }

  lemma {:induction false} CostsOverZero(keys: seq<ThingDef>, remaining: ThingCounts, registry: ThingRegistry)
    requires AllZero(remaining)
    ensures AllZero(CostsOver(keys, remaining, registry))
  {
    if |keys| > 0 {
      CostsOverZero(keys[..|keys| - 1], remaining, registry);
      AddCostListZero(CostsOver(keys[..|keys| - 1], remaining, registry), CostList(registry, keys[|keys| - 1]));
    }
  }

  lemma {:induction false} WriteIngredientsZero(deep: ThingCounts, costs: ThingCounts, list: seq<ThingDefCount>)
    requires AllZero(deep) && AllZero(costs)
    ensures AllZero(WriteIngredients(deep, costs, 0, list))
  {
    if |list| > 0 {
      WriteIngredientsZero(deep, costs, list[..|list| - 1]);
    }
  }

  lemma {:induction false} ExpandOverZero(keys: seq<ThingDef>, costs: ThingCounts, world: MapSnapshot, allDefs: seq<RecipeDef>)
    requires AllZero(costs)
    ensures AllZero(ExpandOver(keys, costs, world, allDefs))
  {
    if |keys| > 0 {
      var prefix := keys[..|keys| - 1];
      ExpandOverZero(prefix, costs, world, allDefs);
      var item := keys[|keys| - 1];
      match IngredientsFor(allDefs, item)
      case None =>
      case Some(list) =>
        assert CostCount(costs, world, item) == 0;
        WriteIngredientsZero(ExpandOver(prefix, costs, world, allDefs), costs, list);
    }
  }

  /** If every part is on hand in at least its target quantity, every entry of
      the deficit is 0 (entries may still be present). */
  lemma SatisfiedGoalAllZero(parts: ThingCounts, world: MapSnapshot, registry: ThingRegistry, allDefs: seq<RecipeDef>)
    requires forall p :: p in parts.amounts ==> parts.amounts[p] <= StockOf(world, registry, p, false, true)
    ensures AllZero(Deficit(parts, world, registry, allDefs))
  {
    var counted := CountedParts(world, registry, parts);
    RemainingOverZero(parts.order, parts, counted);
    var remaining := RemainingParts(parts, counted);
    CostsOverZero(remaining.order, remaining, registry);
    var costs := DirectCosts(remaining, registry);
    ExpandOverZero(costs.order, costs, world, allDefs);
  }

  // ---------------------------------------------------------------------------
  // More stock never raises the deficit

  lemma MulMonotone(a: int, b: int, c: nat)
    requires a <= b
    ensures a * c <= b * c
  {
  }

  lemma {:induction false} RemainingOverMonotone(keys: seq<ThingDef>, parts: ThingCounts, counted: map<ThingDef, int>, more: map<ThingDef, int>)
    requires forall p :: p in keys ==> GetOrZero(counted, p) <= GetOrZero(more, p)
    ensures Below(RemainingOver(keys, parts, more), RemainingOver(keys, parts, counted))
  {
    if |keys| > 0 {
      var prefix := keys[..|keys| - 1];
      RemainingOverMonotone(prefix, parts, counted, more);
      var p := keys[|keys| - 1];
      BelowPut(RemainingOver(prefix, parts, more), RemainingOver(prefix, parts, counted), p,
               Max(TryGet(parts, p) - GetOrZero(more, p), 0), Max(TryGet(parts, p) - GetOrZero(counted, p), 0));
    }
  }

  lemma {:induction false} AddCostListMonotone(less: ThingCounts, more: ThingCounts, a: int, b: int, list: seq<ThingDefCount>)
    requires Below(less, more) && a <= b
    ensures Below(AddCostList(less, a, list), AddCostList(more, b, list))
  {
    if |list| > 0 {
      var prefix := list[..|list| - 1];
      var c := list[|list| - 1];
      AddCostListMonotone(less, more, a, b, prefix);
      var l, m := AddCostList(less, a, prefix), AddCostList(more, b, prefix);
      BelowTryGet(l, m, c.thingDef);
      MulMonotone(a, b, c.count);
      BelowPut(l, m, c.thingDef, TryGet(l, c.thingDef) + a * c.count, TryGet(m, c.thingDef) + b * c.count);
    }
  }

  lemma {:induction false} CostsOverMonotone(keys: seq<ThingDef>, less: ThingCounts, more: ThingCounts, registry: ThingRegistry)
    requires Below(less, more)
    ensures Below(CostsOver(keys, less, registry), CostsOver(keys, more, registry))
  {
    if |keys| > 0 {
      var prefix := keys[..|keys| - 1];
      var p := keys[|keys| - 1];
      CostsOverMonotone(prefix, less, more, registry);
      BelowTryGet(less, more, p);
      AddCostListMonotone(CostsOver(prefix, less, registry), CostsOver(prefix, more, registry), TryGet(less, p), TryGet(more, p), CostList(registry, p));
    }
  }

  lemma {:induction false} WriteIngredientsMonotone(d1: ThingCounts, d2: ThingCounts, c1: ThingCounts, c2: ThingCounts, k1: int, k2: int, list: seq<ThingDefCount>)
    requires Below(d1, d2) && Below(c1, c2) && k1 <= k2
    ensures Below(WriteIngredients(d1, c1, k1, list), WriteIngredients(d2, c2, k2, list))
  {
    if |list| > 0 {
      var prefix := list[..|list| - 1];
      var c := list[|list| - 1];
      WriteIngredientsMonotone(d1, d2, c1, c2, k1, k2, prefix);
      BelowTryGet(c1, c2, c.thingDef);
      MulMonotone(k1, k2, c.count);
      BelowPut(WriteIngredients(d1, c1, k1, prefix), WriteIngredients(d2, c2, k2, prefix), c.thingDef,
               TryGet(c1, c.thingDef) + k1 * c.count, TryGet(c2, c.thingDef) + k2 * c.count);
    }
  }

  lemma {:induction false} ExpandOverMonotone(keys: seq<ThingDef>, less: ThingCounts, more: ThingCounts, stocked: MapSnapshot, world: MapSnapshot, allDefs: seq<RecipeDef>)
    requires Below(less, more)
    requires forall t :: GetCount(world, t) <= GetCount(stocked, t)
    ensures Below(ExpandOver(keys, less, stocked, allDefs), ExpandOver(keys, more, world, allDefs))
  {
    if |keys| > 0 {
      var prefix := keys[..|keys| - 1];
      var item := keys[|keys| - 1];
      ExpandOverMonotone(prefix, less, more, stocked, world, allDefs);
      match IngredientsFor(allDefs, item)
      case None =>
      case Some(list) =>
        BelowTryGet(less, more, item);
        assert GetCount(world, item) <= GetCount(stocked, item);
        WriteIngredientsMonotone(ExpandOver(prefix, less, stocked, allDefs), ExpandOver(prefix, more, world, allDefs), less, more,
                                 CostCount(less, stocked, item), CostCount(more, world, item), list);
    }
  }

  /** More stock, of the parts as CountAll counts them and in the resource
      counter, with the goal held fixed, lowers or keeps every entry of the
      deficit, and changes neither its keys nor their order. */
  lemma DeficitMonotone(parts: ThingCounts, world: MapSnapshot, stocked: MapSnapshot, registry: ThingRegistry, allDefs: seq<RecipeDef>)
    requires forall p :: p in parts.order ==> StockOf(world, registry, p, false, true) <= StockOf(stocked, registry, p, false, true)
    requires forall t :: GetCount(world, t) <= GetCount(stocked, t)
    ensures Below(Deficit(parts, stocked, registry, allDefs), Deficit(parts, world, registry, allDefs))
  {
    var counted, countedMore := CountedParts(world, registry, parts), CountedParts(stocked, registry, parts);
    RemainingOverMonotone(parts.order, parts, counted, countedMore);
    var remLess, remMore := RemainingParts(parts, countedMore), RemainingParts(parts, counted);
    CostsOverMonotone(remLess.order, remLess, remMore, registry);
    var costLess, costMore := DirectCosts(remLess, registry), DirectCosts(remMore, registry);
    ExpandOverMonotone(costLess.order, costLess, costMore, stocked, world, allDefs);
  }

  /** In particular, a resource counter holding more of any things, with every
      other holding the same, never raises the deficit. */
  lemma DeficitMonotoneInCounter(parts: ThingCounts, world: MapSnapshot, stocked: MapSnapshot, registry: ThingRegistry, allDefs: seq<RecipeDef>)
    requires MoreInCounter(world, stocked)
    ensures Below(Deficit(parts, stocked, registry, allDefs), Deficit(parts, world, registry, allDefs))
  {
    forall p | p in parts.order
      ensures StockOf(world, registry, p, false, true) <= StockOf(stocked, registry, p, false, true)
    {
      StockOfMonotone(world, stocked, registry, p, false, true);
    }
    DeficitMonotone(parts, world, stocked, registry, allDefs);
  }
}
