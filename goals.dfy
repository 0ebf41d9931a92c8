/**
 * The goals: a goal's parts and its derived resourceAmounts, recomputed in
 * place by UpdateResourceAmounts; the preset re-evaluation rules; and the mod
 * object holding the current goal, ticked by the host and switched from the
 * goal menu. The class Goal stands for the source's class of that name (its
 * constructor, UpdateResourceAmounts and CounterTick); the class Tracker for
 * the mod class ResourceGoalTracker with its static curGoal and DefsLoaded, the
 * four goals of Goal.Presets, the counter tick patch and the menu option action.
 */
module Goals {

  import opened Wrappers
  import opened Defs
  import opened Counts
  import opened StockCounter
  import opened Recipes
  import opened CostAggregator

  const SHIP_REACTOR: ThingDef := "Ship_Reactor"
  const SHIP_CRYPTOSLEEP_CASKET: ThingDef := "Ship_CryptosleepCasket"

  /** A goal's optional CustomCounterTick: none, or setting the cryptosleep
      casket target to the free colonists on the current map, or to all free
      colonists alive anywhere. */
  datatype CounterRule = NoRule | ShipMapColonists | ShipAllColonists

  /** The two colonist counts the rules read (mapPawns.FreeColonistsCount and
      the count of all free colonists, on maps, in caravans and in transit). */
  datatype ColonistCounts = ColonistCounts(onMap: nat, all: nat)

  /** The parts after the rule has run: only the casket target can change. */
  function ApplyRule(rule: CounterRule, parts: ThingCounts, colonists: ColonistCounts): (r: ThingCounts)
    ensures rule.NoRule? ==> r == parts
    ensures rule.ShipMapColonists? ==> TryGet(r, SHIP_CRYPTOSLEEP_CASKET) == colonists.onMap
    ensures rule.ShipAllColonists? ==> TryGet(r, SHIP_CRYPTOSLEEP_CASKET) == colonists.all
    ensures forall t :: t != SHIP_CRYPTOSLEEP_CASKET ==> TryGet(r, t) == TryGet(parts, t)
    ensures WellFormed(parts) ==> WellFormed(r) && (SHIP_CRYPTOSLEEP_CASKET in parts.amounts ==> r.order == parts.order)
  {
    match rule
    case NoRule => parts
    case ShipMapColonists => Put(parts, SHIP_CRYPTOSLEEP_CASKET, colonists.onMap)
    case ShipAllColonists => Put(parts, SHIP_CRYPTOSLEEP_CASKET, colonists.all)
  }

  // The loops of Goal.UpdateResourceAmounts, one method per stage.

  /** The parts loop: each part's target less its counted stock, at least 0. */
  method RemainingPartsLoop(parts: ThingCounts, countedParts: map<ThingDef, int>) returns (remainingParts: ThingCounts)
    ensures remainingParts == RemainingParts(parts, countedParts)
  {
    remainingParts := Empty;
    for i := 0 to |parts.order|
      invariant remainingParts == RemainingOver(parts.order[..i], parts, countedParts)
    {
      var part := parts.order[i];
      remainingParts := Put(remainingParts, part, Max(TryGet(parts, part) - GetOrZero(countedParts, part), 0));
      RemainingOverStep(parts.order, i, parts, countedParts);
    }
    assert parts.order[..|parts.order|] == parts.order;
  }

  /** The nested cost loops: every part's cost list, times what remains of it. */
  method DirectCostsLoop(remainingParts: ThingCounts, registry: ThingRegistry) returns (costs: ThingCounts)
    ensures costs == DirectCosts(remainingParts, registry)
  {
    costs := Empty;
    for i := 0 to |remainingParts.order|
      invariant costs == CostsOver(remainingParts.order[..i], remainingParts, registry)
    {
      var part := remainingParts.order[i];
      var amount := TryGet(remainingParts, part);
      costs := AddCostListLoop(costs, amount, CostList(registry, part));
      CostsOverStep(remainingParts.order, i, remainingParts, registry);
    }
    assert remainingParts.order[..|remainingParts.order|] == remainingParts.order;
  }

  /** The inner cost loop: `amount` times each cost entry, added onto `costs`. */
  method AddCostListLoop(costs: ThingCounts, amount: int, costList: seq<ThingDefCount>) returns (newCosts: ThingCounts)
    ensures newCosts == AddCostList(costs, amount, costList)
  {
    newCosts := costs;
    for j := 0 to |costList|
      invariant newCosts == AddCostList(costs, amount, costList[..j])
    {
      var cost := costList[j];
      newCosts := Put(newCosts, cost.thingDef, TryGet(newCosts, cost.thingDef) + amount * cost.count);
      AddCostListStep(costs, amount, costList, j);
    }
    assert costList[..|costList|] == costList;
  }

  /** The expansion loop over a copy of `costs`, through the recipe caches. */
  method ExpandLoop(costs: ThingCounts, world: MapSnapshot, index: RecipeIndex) returns (deepCosts: ThingCounts)
    requires index.Valid()
    modifies index`thingsRecipes, index`recipesIngredientCounts
    ensures index.Valid()
    ensures deepCosts == DeepCosts(costs, world, index.allDefs)
  {
    deepCosts := costs;
    for i := 0 to |costs.order|
      invariant index.Valid()
      invariant deepCosts == ExpandOver(costs.order[..i], costs, world, index.allDefs)
    {
      var item := costs.order[i];
      var recipe := index.RecipeFor(item);
      var ingredientCounts := index.IngredientCountsFor(recipe);
      if ingredientCounts.Some? {
        var list := ingredientCounts.value;
        // only the part of the intermediate not yet in stock is expanded
        var costCount := Max(TryGet(costs, item) - GetCount(world, item), 0);
        deepCosts := WriteIngredientsLoop(deepCosts, costs, costCount, list);
      }
      ExpandOverStep(costs.order, i, costs, world, index.allDefs);
    }
    assert costs.order[..|costs.order|] == costs.order;
  }

  /** The inner expansion loop: each ingredient set from its direct cost. */
  method WriteIngredientsLoop(deep: ThingCounts, costs: ThingCounts, costCount: int, list: seq<ThingDefCount>) returns (deepCosts: ThingCounts)
    ensures deepCosts == WriteIngredients(deep, costs, costCount, list)
  {
    deepCosts := deep;
    for j := 0 to |list|
      invariant deepCosts == WriteIngredients(deep, costs, costCount, list[..j])
    {
      var ingredientCount := list[j];
      deepCosts := Put(deepCosts, ingredientCount.thingDef, TryGet(costs, ingredientCount.thingDef) + costCount * ingredientCount.count);
      WriteIngredientsStep(deep, costs, costCount, list, j);
    }
    assert list[..|list|] == list;
  }

  class Goal {

    var parts: ThingCounts
    const rule: CounterRule

    /** None until the first recompute (the source's field starts out null). */
    var resourceAmounts: Option<ThingCounts>

    constructor (parts: ThingCounts, rule: CounterRule)
      requires WellFormed(parts)
      ensures this.parts == parts && this.rule == rule && resourceAmounts == None
    {
      this.parts := parts;
      this.rule := rule;
      resourceAmounts := None;
    }

    /** Recomputes resourceAmounts from the parts, the current map and the
        recipe caches, which it may fill but which never change the result. */
    method UpdateResourceAmounts(world: MapSnapshot, registry: ThingRegistry, index: RecipeIndex)
      requires WellFormed(parts) && index.Valid()
      modifies this`resourceAmounts, index`thingsRecipes, index`recipesIngredientCounts
      ensures index.Valid()
      ensures resourceAmounts == Some(Deficit(parts, world, registry, index.allDefs))
    {
      var countedParts := CountAll(world, registry, parts.order, false, true);
      assert countedParts == CountedParts(world, registry, parts);
      var remainingParts := RemainingPartsLoop(parts, countedParts);
      var costs := DirectCostsLoop(remainingParts, registry);
      // the expansion starts from a copy of costs, so every direct cost key is kept
      var deepCosts := ExpandLoop(costs, world, index);
      resourceAmounts := Some(Clamp(deepCosts, world));
    }

    /** Goal.CounterTick: this goal's rule runs on the current goal `cur`, then
        this goal recomputes. */
    method CounterTick(cur: Goal, world: MapSnapshot, colonists: ColonistCounts, registry: ThingRegistry, index: RecipeIndex)
      requires WellFormed(parts) && WellFormed(cur.parts) && index.Valid()
      modifies this`resourceAmounts, cur`parts, index`thingsRecipes, index`recipesIngredientCounts
      ensures index.Valid() && WellFormed(parts) && WellFormed(cur.parts)
      ensures cur.parts == ApplyRule(rule, old(cur.parts), colonists)
      ensures cur != this ==> parts == old(parts)
      ensures resourceAmounts == Some(Deficit(parts, world, registry, index.allDefs))
    {
      cur.parts := ApplyRule(rule, cur.parts, colonists);
      UpdateResourceAmounts(world, registry, index);
    }
  }

  /** The mod object: the preset goals, the session's recipe caches and the
      current goal that the resource readout displays. */
  class Tracker {

    const index: RecipeIndex
    const reactorOnly: Goal
    const shipMinColonists: Goal
    const shipMapColonists: Goal
    const shipAllColonists: Goal
    var curGoal: Goal

    ghost predicate Valid()
      reads this, index, reactorOnly, shipMinColonists, shipMapColonists, shipAllColonists, curGoal
    {
      index.Valid() &&
      WellFormed(reactorOnly.parts) && WellFormed(shipMinColonists.parts) &&
      WellFormed(shipMapColonists.parts) && WellFormed(shipAllColonists.parts) &&
      WellFormed(curGoal.parts)
    }

    /** The presets are built from the ship's required parts, and DefsLoaded
        makes the reactor-only goal current. */
    constructor (allDefs: seq<RecipeDef>, requiredParts: ThingCounts)
      requires WellFormed(requiredParts)
      ensures Valid()
      ensures fresh(index) && index.allDefs == allDefs && index.thingsRecipes == map[] && index.recipesIngredientCounts == map[]
      ensures reactorOnly.parts == ThingCounts([SHIP_REACTOR], map[SHIP_REACTOR := 1]) && reactorOnly.rule == NoRule
      ensures shipMinColonists.parts == requiredParts && shipMinColonists.rule == NoRule
      ensures shipMapColonists.parts == requiredParts && shipMapColonists.rule == ShipMapColonists
      ensures shipAllColonists.parts == requiredParts && shipAllColonists.rule == ShipAllColonists
      ensures curGoal == reactorOnly && curGoal.resourceAmounts == None
    {
      index := new RecipeIndex(allDefs);
      var reactor := new Goal(ThingCounts([SHIP_REACTOR], map[SHIP_REACTOR := 1]), NoRule);
      reactorOnly := reactor;
      shipMinColonists := new Goal(requiredParts, NoRule);
      shipMapColonists := new Goal(requiredParts, ShipMapColonists);
      shipAllColonists := new Goal(requiredParts, ShipAllColonists);
      curGoal := reactor;
    }

    /** The host's resource counter tick: the current goal runs its rule on
        itself and recomputes. */
    method Tick(world: MapSnapshot, colonists: ColonistCounts, registry: ThingRegistry)
      requires Valid()
      modifies curGoal`resourceAmounts, curGoal`parts, index`thingsRecipes, index`recipesIngredientCounts
      ensures Valid()
      ensures curGoal.parts == ApplyRule(curGoal.rule, old(curGoal.parts), colonists)
      ensures curGoal.resourceAmounts == Some(Deficit(curGoal.parts, world, registry, index.allDefs))
    {
      curGoal.CounterTick(curGoal, world, colonists, registry, index);
    }

    /** The action of a goal's menu option: the chosen goal becomes current and
        recomputes at once, so the readout never shows another goal's figures. */
    method SwitchTo(goal: Goal, world: MapSnapshot, colonists: ColonistCounts, registry: ThingRegistry)
      requires Valid() && WellFormed(goal.parts)
      modifies this`curGoal, goal`resourceAmounts, goal`parts, index`thingsRecipes, index`recipesIngredientCounts
      ensures Valid()
      ensures curGoal == goal
      ensures goal.parts == ApplyRule(goal.rule, old(goal.parts), colonists)
      ensures goal.resourceAmounts == Some(Deficit(goal.parts, world, registry, index.allDefs))
    {
      curGoal := goal;
      curGoal.CounterTick(curGoal, world, colonists, registry, index);
    }
  }
}
