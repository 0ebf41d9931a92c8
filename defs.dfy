/**
 * The static game data the tracker reads: thing kinds, their construction
 * cost lists, which kinds the resource counter tracks in bulk, and recipes.
 * All of it is owned by the host's definition database and is read-only here.
 */
module Defs {

  /** A kind of thing, identified as the host identifies its ThingDefs: by defName. */
  type ThingDef = string

  /** A thing kind with a quantity (RimWorld's ThingDefCountClass): an entry of a
      cost list, of a recipe's product list or of a flattened ingredient list. */
  datatype ThingDefCount = ThingDefCount(thingDef: ThingDef, count: nat)

  /** One ingredient slot of a recipe. `allowedCounts` lists the things the slot's
      filter allows, in the filter's enumeration order, each paired with the
      count the slot requires of that thing for its recipe (the host's
      CountRequiredOfFor, taken as given data). */
  datatype IngredientCount = IngredientCount(allowedCounts: seq<ThingDefCount>)

  /** A crafting recipe: what it produces and its ingredient slots. */
  datatype RecipeDef = RecipeDef(defName: string, products: seq<ThingDefCount>, ingredients: seq<IngredientCount>)

  /** The per-ThingDef data the tracker uses: each def's construction cost list
      (a def absent from `costLists` has none) and the defs the resource counter
      tracks in bulk (CountAsResource). */
  datatype ThingRegistry = ThingRegistry(costLists: map<ThingDef, seq<ThingDefCount>>, resourceDefs: set<ThingDef>)

  function CostList(registry: ThingRegistry, t: ThingDef): seq<ThingDefCount>
  {
    if t in registry.costLists then registry.costLists[t] else []
  }

  predicate CountAsResource(registry: ThingRegistry, t: ThingDef)
  {
    t in registry.resourceDefs
  }

  /** Some entry of `list` names `t`. */
  predicate Mentions(list: seq<ThingDefCount>, t: ThingDef)
  {
    exists k :: 0 <= k < |list| && list[k].thingDef == t
  }

  /** The thing kinds the entries of `list` name, entry by entry. */
  function Names(list: seq<ThingDefCount>): (r: seq<ThingDef>)
    ensures |r| == |list| && forall i :: 0 <= i < |list| ==> r[i] == list[i].thingDef
  {
    if |list| == 0 then []
    else Names(list[..|list| - 1]) + [list[|list| - 1].thingDef]
  }

  /** The total quantity of `t` over all entries of `list`. */
  function CountIn(list: seq<ThingDefCount>, t: ThingDef): nat
  {
    if |list| == 0 then 0
    else CountIn(list[..|list| - 1], t) + (if list[|list| - 1].thingDef == t then list[|list| - 1].count else 0)
  }

  /** The quantity of the LAST entry of `list` that names `t`; 0 when none does. */
  function LastCountOf(list: seq<ThingDefCount>, t: ThingDef): (c: nat)
    ensures !Mentions(list, t) ==> c == 0
    ensures Mentions(list, t) ==>
              exists k :: 0 <= k < |list| && list[k].thingDef == t && list[k].count == c &&
                          forall j :: k < j < |list| ==> list[j].thingDef != t
  {
    if |list| == 0 then 0
    else if list[|list| - 1].thingDef == t then list[|list| - 1].count
    else
      assert forall k :: 0 <= k < |list| - 1 ==> list[..|list| - 1][k] == list[k];
      LastCountOf(list[..|list| - 1], t)
  }
}
