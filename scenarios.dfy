/**
 * Worked cases of the deficit computation on a small definition database:
 * a reactor costing 3 components, and a component crafted from 2 raw metal.
 */
module Scenarios {

  import opened Wrappers
  import opened Defs
  import opened Counts
  import opened StockCounter
  import opened Recipes
  import opened CostAggregator

  const Reactor: ThingDef := "Ship_Reactor"
  const Component: ThingDef := "Component"
  const RawMetal: ThingDef := "RawMetal"

  const MakeComponent := RecipeDef("Make_Component", [ThingDefCount(Component, 1)], [IngredientCount([ThingDefCount(RawMetal, 2)])])
  const ReactorRegistry := ThingRegistry(map[Reactor := [ThingDefCount(Component, 3)]], {Component, RawMetal})
  const ReactorGoal := ThingCounts([Reactor], map[Reactor := 1])

  const EmptyMap := MapSnapshot(map[], map[])
  const OneComponentMap := MapSnapshot(map[Component := 1], map[])
  const ReactorBuiltMap := MapSnapshot(map[], map[Reactor := Holdings([ListedStack(1, true)], [], [], [], [], [])])

  lemma ComponentRecipe()
    ensures IngredientsFor([MakeComponent], Component) == Some([ThingDefCount(RawMetal, 2)])
    ensures IngredientsFor([MakeComponent], RawMetal) == None
  {
    assert Produces(MakeComponent, Component) by {
      assert MakeComponent.products[0].thingDef == Component;
    }
    assert [MakeComponent][0] == MakeComponent;
    assert Flatten(MakeComponent.ingredients) == [ThingDefCount(RawMetal, 2)] by {
      assert MakeComponent.ingredients[1..] == [];
    }
  }

  /** Stage 1 for the reactor goal on any map: the one reactor, less those
      counted there. */
  lemma ReactorRemaining(world: MapSnapshot)
    ensures RemainingParts(ReactorGoal, CountedParts(world, ReactorRegistry, ReactorGoal)) ==
            ThingCounts([Reactor], map[Reactor := Max(1 - StockOf(world, ReactorRegistry, Reactor, false, true), 0)])
  {
    var counted := CountedParts(world, ReactorRegistry, ReactorGoal);
    assert ReactorGoal.order == [Reactor] && [Reactor][..0] == [];
    assert GetOrZero(counted, Reactor) == StockOf(world, ReactorRegistry, Reactor, false, true);
    assert RemainingOver([], ReactorGoal, counted) == Empty;
  }

  /** Stage 2: `n` reactors still to build cost 3n components. */
  lemma ReactorDirectCosts(n: int)
    ensures DirectCosts(ThingCounts([Reactor], map[Reactor := n]), ReactorRegistry) == ThingCounts([Component], map[Component := 3 * n])
  {
    var remaining := ThingCounts([Reactor], map[Reactor := n]);
    var list := CostList(ReactorRegistry, Reactor);
    assert list == [ThingDefCount(Component, 3)] && list[..0] == [];
    assert AddCostList(Empty, n, list) == Put(Empty, Component, n * 3);
    assert remaining.order == [Reactor] && [Reactor][..0] == [];
    assert CostsOver([], remaining, ReactorRegistry) == Empty;
  }

  /** Stage 3: the components not in stock are expanded into twice as much raw metal. */
  lemma ComponentExpansion(n: int, world: MapSnapshot)
    ensures DeepCosts(ThingCounts([Component], map[Component := n]), world, [MakeComponent]) ==
            ThingCounts([Component, RawMetal], map[Component := n, RawMetal := Max(n - GetCount(world, Component), 0) * 2])
  {
    var costs := ThingCounts([Component], map[Component := n]);
    var list := [ThingDefCount(RawMetal, 2)];
    ComponentRecipe();
    assert list[..0] == [];
    assert WriteIngredients(costs, costs, CostCount(costs, world, Component), list) ==
           Put(costs, RawMetal, Max(n - GetCount(world, Component), 0) * 2);
    assert costs.order == [Component] && [Component][..0] == [];
    assert ExpandOver([], costs, world, [MakeComponent]) == costs;
  }

  /** Stages 1 and 2 for the reactor goal on any map. */
  lemma ReactorCosts(world: MapSnapshot)
    ensures var reactors := Max(1 - StockOf(world, ReactorRegistry, Reactor, false, true), 0);
            DirectCosts(RemainingParts(ReactorGoal, CountedParts(world, ReactorRegistry, ReactorGoal)), ReactorRegistry) ==
            ThingCounts([Component], map[Component := 3 * reactors])
  {
    ReactorRemaining(world);
    ReactorDirectCosts(Max(1 - StockOf(world, ReactorRegistry, Reactor, false, true), 0));
  }

  /** Stages 1 to 3 for the reactor goal on any map. */
  lemma ReactorDeepCosts(world: MapSnapshot)
    ensures var reactors := Max(1 - StockOf(world, ReactorRegistry, Reactor, false, true), 0);
            var remaining := RemainingParts(ReactorGoal, CountedParts(world, ReactorRegistry, ReactorGoal));
            DeepCosts(DirectCosts(remaining, ReactorRegistry), world, [MakeComponent]) ==
            ThingCounts([Component, RawMetal], map[Component := 3 * reactors, RawMetal := Max(3 * reactors - GetCount(world, Component), 0) * 2])
  {
    ReactorCosts(world);
    ComponentExpansion(3 * Max(1 - StockOf(world, ReactorRegistry, Reactor, false, true), 0), world);
  }

  /** The reactor goal on any map: the reactors not on the map cost three
      components each; the components the resource counter lacks cost two raw
      metal each; both are listed, in that order, less what the counter holds. */
  lemma ReactorDeficit(world: MapSnapshot)
    ensures var reactors := Max(1 - StockOf(world, ReactorRegistry, Reactor, false, true), 0);
            var components := Max(3 * reactors - GetCount(world, Component), 0);
            var r := Deficit(ReactorGoal, world, ReactorRegistry, [MakeComponent]);
            r.order == [Component, RawMetal] && r.amounts.Keys == {Component, RawMetal} &&
            r.amounts[Component] == components && r.amounts[RawMetal] == Max(components * 2 - GetCount(world, RawMetal), 0)
  {
    ReactorDeepCosts(world);
  }

  /** The reactor and its resources are nowhere on the map: 3 components, and
      the 6 raw metal they would be crafted from. */
  lemma NothingStocked()
    ensures var r := Deficit(ReactorGoal, EmptyMap, ReactorRegistry, [MakeComponent]);
            r.order == [Component, RawMetal] && r.amounts == map[Component := 3, RawMetal := 6]
  {
    assert StockOf(EmptyMap, ReactorRegistry, Reactor, false, true) == 0;
    ReactorDeficit(EmptyMap);
    var r := Deficit(ReactorGoal, EmptyMap, ReactorRegistry, [MakeComponent]);
    assert r.amounts[Component] == 3 && r.amounts[RawMetal] == 6;
  }

  /** One component in stock: 2 components more, crafted from 4 raw metal. */
  lemma OneComponentStocked()
    ensures var r := Deficit(ReactorGoal, OneComponentMap, ReactorRegistry, [MakeComponent]);
            r.order == [Component, RawMetal] && r.amounts == map[Component := 2, RawMetal := 4]
  {
    assert StockOf(OneComponentMap, ReactorRegistry, Reactor, false, true) == 0;
    ReactorDeficit(OneComponentMap);
    var r := Deficit(ReactorGoal, OneComponentMap, ReactorRegistry, [MakeComponent]);
    assert r.amounts[Component] == 2 && r.amounts[RawMetal] == 4;
  }

  /** The reactor already stands on the map: every resource of its cost list
      still gets an entry, each of them 0. */
  lemma ReactorBuilt()
    ensures var r := Deficit(ReactorGoal, ReactorBuiltMap, ReactorRegistry, [MakeComponent]);
            r.order == [Component, RawMetal] && r.amounts == map[Component := 0, RawMetal := 0]
  {
    assert ListedCount([ListedStack(1, true)], true) == 1 by {
      assert [ListedStack(1, true)][..0] == [];
    }
    assert StockOf(ReactorBuiltMap, ReactorRegistry, Reactor, false, true) == 1;
    ReactorDeficit(ReactorBuiltMap);
    var r := Deficit(ReactorGoal, ReactorBuiltMap, ReactorRegistry, [MakeComponent]);
    assert r.amounts[Component] == 0 && r.amounts[RawMetal] == 0;
  }

  // A console costing a component and a chip, each crafted from one raw metal:
  // the second expansion overwrites the first one's raw metal.

  const Console: ThingDef := "Console"
  const Chip: ThingDef := "Chip"

  const MakeComponentCheap := RecipeDef("Make_Component", [ThingDefCount(Component, 1)], [IngredientCount([ThingDefCount(RawMetal, 1)])])
  const MakeChip := RecipeDef("Make_Chip", [ThingDefCount(Chip, 1)], [IngredientCount([ThingDefCount(RawMetal, 1)])])
  const ConsoleRegistry := ThingRegistry(map[Console := [ThingDefCount(Component, 1), ThingDefCount(Chip, 1)]], {})
  const ConsoleCosts := ThingCounts([Component, Chip], map[Component := 1, Chip := 1])

  const ConsoleRecipes := [MakeComponentCheap, MakeChip]
  const ConsoleGoal := ThingCounts([Console], map[Console := 1])

  lemma ConsoleComponentRecipe()
    ensures IngredientsFor(ConsoleRecipes, Component) == Some([ThingDefCount(RawMetal, 1)])
  {
    assert ConsoleRecipes[0] == MakeComponentCheap;
    assert Produces(MakeComponentCheap, Component) by {
      assert MakeComponentCheap.products[0].thingDef == Component;
    }
    assert FirstRecipeFor(ConsoleRecipes, Component) == Some(MakeComponentCheap);
    assert MakeComponentCheap.ingredients[1..] == [];
    assert Flatten(MakeComponentCheap.ingredients) == [ThingDefCount(RawMetal, 1)] + [];
    assert Flatten(MakeComponentCheap.ingredients) == [ThingDefCount(RawMetal, 1)];
    assert IngredientCountsOf(Some(MakeComponentCheap)) == Some(Flatten(MakeComponentCheap.ingredients));
  }

  lemma ConsoleChipRecipe()
    ensures IngredientsFor(ConsoleRecipes, Chip) == Some([ThingDefCount(RawMetal, 1)])
  {
    assert ConsoleRecipes[0] == MakeComponentCheap && ConsoleRecipes[1..] == [MakeChip];
    assert !Produces(MakeComponentCheap, Chip) by {
      assert |MakeComponentCheap.products| == 1 && MakeComponentCheap.products[0].thingDef == Component;
    }
    assert Produces(MakeChip, Chip) by {
      assert MakeChip.products[0].thingDef == Chip;
    }
    assert [MakeChip][0] == MakeChip;
    assert FirstRecipeFor([MakeChip], Chip) == Some(MakeChip);
    assert FirstRecipeFor(ConsoleRecipes, Chip) == Some(MakeChip);
    assert MakeChip.ingredients[1..] == [];
    assert Flatten(MakeChip.ingredients) == [ThingDefCount(RawMetal, 1)] + [];
    assert Flatten(MakeChip.ingredients) == [ThingDefCount(RawMetal, 1)];
    assert IngredientCountsOf(Some(MakeChip)) == Some(Flatten(MakeChip.ingredients));
  }

  lemma ConsoleRemaining(world: MapSnapshot)
    requires StockOf(world, ConsoleRegistry, Console, false, true) == 0
    ensures RemainingParts(ConsoleGoal, CountedParts(world, ConsoleRegistry, ConsoleGoal)) == ConsoleGoal
  {
    var counted := CountedParts(world, ConsoleRegistry, ConsoleGoal);
    assert ConsoleGoal.order == [Console] && [Console][..0] == [];
    assert GetOrZero(counted, Console) == 0;
    assert RemainingOver([], ConsoleGoal, counted) == Empty;
  }

  /** The console's direct cost: one component and one chip. */
  lemma ConsoleDirectCosts()
    ensures DirectCosts(ConsoleGoal, ConsoleRegistry) == ConsoleCosts
  {
    var list := CostList(ConsoleRegistry, Console);
    assert ConsoleGoal.order == [Console] && [Console][..0] == [];
    assert CostsOver([], ConsoleGoal, ConsoleRegistry) == Empty;
    assert list[..1][..0] == [] && list[..2][..1] == list[..1] && list[..2] == list;
    assert AddCostList(Empty, 1, list[..1]) == Put(Empty, Component, 1);
  }

  lemma RawMetalListCounts()
    ensures Mentions([ThingDefCount(RawMetal, 1)], RawMetal)
    ensures LastCountOf([ThingDefCount(RawMetal, 1)], RawMetal) == 1 && CountIn([ThingDefCount(RawMetal, 1)], RawMetal) == 1
  {
    var list := [ThingDefCount(RawMetal, 1)];
    assert list[0].thingDef == RawMetal;
    assert list[..0] == [];
  }

  /** The chip, expanded last, sets raw metal to its own 1. */
  lemma ConsoleExpansion()
    ensures TryGet(DeepCosts(ConsoleCosts, EmptyMap, ConsoleRecipes), RawMetal) == 1
  {
    RawMetalListCounts();
    ConsoleChipRecipe();
    assert ConsoleCosts.order == [Component, Chip];
    assert CostCount(ConsoleCosts, EmptyMap, Chip) == 1;
    LaterIntermediateOverwrites(ConsoleCosts.order, ConsoleCosts, EmptyMap, ConsoleRecipes, RawMetal, [ThingDefCount(RawMetal, 1)]);
  }

  /** Adding onto the running total counts the raw metal of both. */
  lemma ConsoleAccumulation()
    ensures TryGet(AccumulateOver(ConsoleCosts.order, ConsoleCosts, EmptyMap, ConsoleRecipes), RawMetal) == 2
  {
    RawMetalListCounts();
    ConsoleComponentRecipe();
    ConsoleChipRecipe();
    var keys := ConsoleCosts.order;
    assert keys == [Component, Chip];
    assert CostCount(ConsoleCosts, EmptyMap, Chip) == 1 && CostCount(ConsoleCosts, EmptyMap, Component) == 1;
    assert keys[..1][..0] == [] && keys[..2][..1] == keys[..1] && keys[..2] == keys;
    assert DeepSum(keys[..1], ConsoleCosts, EmptyMap, ConsoleRecipes, RawMetal) == 1;
    AccumulateOverIsDeepSum(keys, ConsoleCosts, EmptyMap, ConsoleRecipes, RawMetal);
  }

  /** As written, the chip's expansion sets raw metal to 1, discarding the
      component's 1: on an empty map the goal asks for 1 raw metal where the
      console needs 2, which is what adding onto the running total gives. */
  lemma OverwriteLosesRawMetal()
    ensures TryGet(Deficit(ConsoleGoal, EmptyMap, ConsoleRegistry, ConsoleRecipes), RawMetal) == 1
    ensures TryGet(AccumulateOver(ConsoleCosts.order, ConsoleCosts, EmptyMap, ConsoleRecipes), RawMetal) == 2
  {
    assert StockOf(EmptyMap, ConsoleRegistry, Console, false, true) == 0;
    ConsoleRemaining(EmptyMap);
    ConsoleDirectCosts();
    ConsoleExpansion();
    ConsoleAccumulation();
    var deep := DeepCosts(ConsoleCosts, EmptyMap, ConsoleRecipes);
    assert RawMetal in deep.amounts;
    assert Clamp(deep, EmptyMap).amounts[RawMetal] == 1;
  }
}
