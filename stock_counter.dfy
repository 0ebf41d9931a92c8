/**
 * Goal.CountAll: how many of each requested thing kind exist on the current
 * map, summed over the holding categories the source enumerates. The live
 * world is replaced by a snapshot that already groups each category's stacks
 * per thing kind. Stands for the static method CountAll of the class Goal.
 */
module StockCounter {

  import opened Defs
  import opened Counts

  /** A spawned thing of the kind found by the map's thing lister. */
  datatype ListedStack = ListedStack(stackCount: nat, isBuilding: bool)

  /** A minified (packaged) thing whose inner thing is of the kind. */
  datatype MinifiedStack = MinifiedStack(stackCount: nat, innerStackCount: nat)

  /** A thing of the kind carried by a free colonist; `isMinified` when the
      carried thing is itself a minified thing. */
  datatype CarriedStack = CarriedStack(stackCount: nat, isMinified: bool)

  /** Everything of one kind held on the map, per category; equipped, worn and
      held lists give the stack counts of colonists' equipment, apparel and
      inventory things of the kind. */
  datatype Holdings = Holdings(
    listed: seq<ListedStack>,
    minified: seq<MinifiedStack>,
    carried: seq<CarriedStack>,
    equipped: seq<nat>,
    worn: seq<nat>,
    held: seq<nat>)

  const NoHoldings := Holdings([], [], [], [], [], [])

  /** The current map: the resource counter's bulk counts and the holdings per
      kind (kinds missing from either map have none). */
  datatype MapSnapshot = MapSnapshot(resourceCounts: map<ThingDef, nat>, holdings: map<ThingDef, Holdings>)

  /** resourceCounter.GetCount. */
  function GetCount(world: MapSnapshot, t: ThingDef): nat
  {
    if t in world.resourceCounts then world.resourceCounts[t] else 0
  }

  function HoldingsOf(world: MapSnapshot, t: ThingDef): Holdings
  {
    if t in world.holdings then world.holdings[t] else NoHoldings
  }

  /** Stack counts of the listed things, buildings only when `includeBuildings`. */
  function ListedCount(stacks: seq<ListedStack>, includeBuildings: bool): nat
  {
    if |stacks| == 0 then 0
    else
      var s := stacks[|stacks| - 1];
      ListedCount(stacks[..|stacks| - 1], includeBuildings) + (if includeBuildings || !s.isBuilding then s.stackCount else 0)
  }

  /** Stack counts of the listed things that are buildings. */
  function BuildingCount(stacks: seq<ListedStack>): nat
  {
    if |stacks| == 0 then 0
    else
      var s := stacks[|stacks| - 1];
      BuildingCount(stacks[..|stacks| - 1]) + (if s.isBuilding then s.stackCount else 0)
  }

  /** Each minified thing contributes its stack count times its inner stack count. */
  function MinifiedCount(stacks: seq<MinifiedStack>): nat
  {
    if |stacks| == 0 then 0
    else
      var s := stacks[|stacks| - 1];
      MinifiedCount(stacks[..|stacks| - 1]) + s.stackCount * s.innerStackCount
  }

  /** A carried thing contributes its stack count, multiplied, when it is a
      minified thing, by that same minified thing's stack count. */
  function CarriedCount(stacks: seq<CarriedStack>): nat
  {
    if |stacks| == 0 then 0
    else
      var s := stacks[|stacks| - 1];
      CarriedCount(stacks[..|stacks| - 1]) + s.stackCount * (if s.isMinified then s.stackCount else 1)
  }

  function StackSum(counts: seq<nat>): nat
  {
    if |counts| == 0 then 0 else StackSum(counts[..|counts| - 1]) + counts[|counts| - 1]
  }

  /** The seven per-category counts the source adds up for one kind. */
  datatype Categories = Categories(asResource: nat, listed: nat, minified: nat, carried: nat, equipped: nat, worn: nat, held: nat)

  function CategoriesOf(world: MapSnapshot, registry: ThingRegistry, t: ThingDef, includeEquipped: bool, includeBuildings: bool): Categories
  {
    var h := HoldingsOf(world, t);
    var bulk := CountAsResource(registry, t);
    Categories(
      if bulk then GetCount(world, t) else 0,
      if bulk then 0 else ListedCount(h.listed, includeBuildings),
      if bulk then 0 else MinifiedCount(h.minified),
      CarriedCount(h.carried),
      if includeEquipped then StackSum(h.equipped) else 0,
      if includeEquipped then StackSum(h.worn) else 0,
      if includeEquipped then StackSum(h.held) else 0)
  }

  /** The total CountAll reports for one kind. */
  function StockOf(world: MapSnapshot, registry: ThingRegistry, t: ThingDef, includeEquipped: bool, includeBuildings: bool): nat
  {
    var c := CategoriesOf(world, registry, t, includeEquipped, includeBuildings);
    c.asResource + c.listed + c.minified + c.carried + c.equipped + c.worn + c.held
  }

  /** Goal.CountAll: one entry per requested kind (the source adds them with
      Dictionary.Add, which refuses a repeated key). */
  method CountAll(world: MapSnapshot, registry: ThingRegistry, thingDefs: seq<ThingDef>, includeEquipped: bool, includeBuildings: bool)
    returns (result: map<ThingDef, int>)
    requires Distinct(thingDefs)
    ensures result.Keys == set t | t in thingDefs
    ensures forall t :: t in result ==> result[t] == StockOf(world, registry, t, includeEquipped, includeBuildings)
  {
    result := map[];
    for i := 0 to |thingDefs|
      invariant result.Keys == set t | t in thingDefs[..i]
      invariant forall t :: t in result ==> result[t] == StockOf(world, registry, t, includeEquipped, includeBuildings)
    {
      var thingDef := thingDefs[i];
      var h := HoldingsOf(world, thingDef);
      var asResourceCount, count, minifiedCount, equippedCount, wornCount, directlyHeldCount := 0, 0, 0, 0, 0, 0;
      if CountAsResource(registry, thingDef) {
        asResourceCount := GetCount(world, thingDef);
      } else {
        count := ListedCount(h.listed, includeBuildings);
        minifiedCount := MinifiedCount(h.minified);
      }
      var carriedCount := CarriedCount(h.carried);
      if includeEquipped {
        equippedCount := StackSum(h.equipped);
        wornCount := StackSum(h.worn);
        directlyHeldCount := StackSum(h.held);
      }
      var totalCount := asResourceCount + count + minifiedCount + carriedCount + equippedCount + wornCount + directlyHeldCount;
      assert thingDef !in result by {
        assert forall j :: 0 <= j < i ==> thingDefs[j] != thingDef;
      }
      result := result[thingDef := totalCount];
      assert thingDefs[..i + 1] == thingDefs[..i] + [thingDef];
    }
    assert thingDefs[..|thingDefs|] == thingDefs;
  }

  /** Building stacks are exactly what `includeBuildings` adds to the listed count. */
  lemma {:induction false} ListedCountBuildings(stacks: seq<ListedStack>)
    ensures ListedCount(stacks, true) == ListedCount(stacks, false) + BuildingCount(stacks)
  {
    if |stacks| > 0 {
      ListedCountBuildings(stacks[..|stacks| - 1]);
    }
  }

  /** Kinds the resource counter tracks in bulk are counted from the counter
      alone: their listed and minified things never enter the total, whatever
      they are. Other kinds never read the counter. */
  lemma BulkBranchExclusive(w1: MapSnapshot, w2: MapSnapshot, registry: ThingRegistry, t: ThingDef, includeEquipped: bool, includeBuildings: bool)
    requires HoldingsOf(w1, t).carried == HoldingsOf(w2, t).carried
    requires HoldingsOf(w1, t).equipped == HoldingsOf(w2, t).equipped
    requires HoldingsOf(w1, t).worn == HoldingsOf(w2, t).worn
    requires HoldingsOf(w1, t).held == HoldingsOf(w2, t).held
    ensures CountAsResource(registry, t) && GetCount(w1, t) == GetCount(w2, t) ==>
              StockOf(w1, registry, t, includeEquipped, includeBuildings) == StockOf(w2, registry, t, includeEquipped, includeBuildings)
    ensures !CountAsResource(registry, t) && HoldingsOf(w1, t) == HoldingsOf(w2, t) ==>
              StockOf(w1, registry, t, includeEquipped, includeBuildings) == StockOf(w2, registry, t, includeEquipped, includeBuildings)
  {
  }

  /** Equipped, worn and held things count only when `includeEquipped`;
      building stacks count only when `includeBuildings`. */
  lemma StockOfFlags(world: MapSnapshot, registry: ThingRegistry, t: ThingDef, includeEquipped: bool, includeBuildings: bool)
    ensures var h := HoldingsOf(world, t);
            StockOf(world, registry, t, true, includeBuildings) ==
            StockOf(world, registry, t, false, includeBuildings) + StackSum(h.equipped) + StackSum(h.worn) + StackSum(h.held)
    ensures var h := HoldingsOf(world, t);
            StockOf(world, registry, t, includeEquipped, true) ==
            StockOf(world, registry, t, includeEquipped, false) + (if CountAsResource(registry, t) then 0 else BuildingCount(h.listed))
  {
    ListedCountBuildings(HoldingsOf(world, t).listed);
  }

  /** `more` differs from `world` only by holding more in the resource counter. */
  ghost predicate MoreInCounter(world: MapSnapshot, more: MapSnapshot)
  {
    more.holdings == world.holdings && forall t :: GetCount(world, t) <= GetCount(more, t)
  }

  lemma StockOfMonotone(world: MapSnapshot, more: MapSnapshot, registry: ThingRegistry, t: ThingDef, includeEquipped: bool, includeBuildings: bool)
    requires MoreInCounter(world, more)
    ensures StockOf(world, registry, t, includeEquipped, includeBuildings) <= StockOf(more, registry, t, includeEquipped, includeBuildings)
  {
    assert GetCount(world, t) <= GetCount(more, t);
  }
}
