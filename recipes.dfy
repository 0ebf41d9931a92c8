/**
 * The two memoised lookups the deficit computation uses: the canonical recipe
 * producing a thing (ResourceSettings.RecipeFor) and a recipe's flattened
 * ingredient list (Goal.IngredientCountsFor). The searches are functions; the
 * caches the source keeps in static dictionaries are the fields of one object.
 * Stands for the static method RecipeFor and the thingsRecipes cache of the
 * class ResourceSettings, and for the static method IngredientCountsFor and the
 * recipesIngredientCounts cache of the class Goal.
 */
module Recipes {

  import opened Wrappers
  import opened Defs

  /** Some product of the recipe is of kind `t`. */
  predicate Produces(recipe: RecipeDef, t: ThingDef)
  {
    Mentions(recipe.products, t)
  }

  /** FirstOrDefault over the recipe database: the first recipe, in enumeration
      order, whose products include `t`; None when no recipe produces it. */
  function FirstRecipeFor(allDefs: seq<RecipeDef>, t: ThingDef): (r: Option<RecipeDef>)
    ensures r.None? <==> forall i :: 0 <= i < |allDefs| ==> !Produces(allDefs[i], t)
    ensures r.Some? ==>
              exists i :: 0 <= i < |allDefs| && allDefs[i] == r.value && Produces(r.value, t) &&
                          forall j :: 0 <= j < i ==> !Produces(allDefs[j], t)
  {
    if |allDefs| == 0 then None
    else if Produces(allDefs[0], t) then Some(allDefs[0])
    else
      var rest := FirstRecipeFor(allDefs[1..], t);
      assert forall i :: 0 <= i < |allDefs| - 1 ==> allDefs[1..][i] == allDefs[i + 1];
      rest
  }

  /** The query comprehension of IngredientCountsFor: slot by slot, and within a
      slot allowed thing by allowed thing, each thing with its required count. */
  function Flatten(slots: seq<IngredientCount>): (r: seq<ThingDefCount>)
    ensures forall x :: x in r <==> exists i :: 0 <= i < |slots| && x in slots[i].allowedCounts
  {
    if |slots| == 0 then []
    else
      var rest := Flatten(slots[1..]);
      assert forall i :: 0 <= i < |slots| - 1 ==> slots[1..][i] == slots[i + 1];
      slots[0].allowedCounts + rest
  }

  /** Flattening distributes over the slot list, so earlier slots come first. */
  lemma {:induction false} FlattenAppend(a: seq<IngredientCount>, b: seq<IngredientCount>)
    ensures Flatten(a + b) == Flatten(a) + Flatten(b)
  {
    if |a| > 0 {
      assert (a + b)[1..] == a[1..] + b;
      FlattenAppend(a[1..], b);
    } else {
      assert a + b == b;
    }
  }

  /** What IngredientCountsFor returns for a (possibly null) recipe. */
  function IngredientCountsOf(recipe: Option<RecipeDef>): (r: Option<seq<ThingDefCount>>)
    ensures r.None? <==> recipe.None?
    ensures recipe.Some? ==> r.value == Flatten(recipe.value.ingredients)
  {
    match recipe
    case None => None
    case Some(rd) => Some(Flatten(rd.ingredients))
  }

  /** IngredientCountsFor(RecipeFor(t)): the flattened ingredients of the
      canonical recipe producing `t`, None when `t` is a raw material. */
  function IngredientsFor(allDefs: seq<RecipeDef>, t: ThingDef): Option<seq<ThingDefCount>>
  {
    IngredientCountsOf(FirstRecipeFor(allDefs, t))
  }

  /** The session's recipe caches over a fixed recipe database. */
  class RecipeIndex {

    /** DefDatabase<RecipeDef>.AllDefs: static within a session. */
    const allDefs: seq<RecipeDef>

    /** ResourceSettings.thingsRecipes. */
    var thingsRecipes: map<ThingDef, RecipeDef>

    /** Goal.recipesIngredientCounts. */
    var recipesIngredientCounts: map<RecipeDef, seq<ThingDefCount>>

    /** Every cached entry is what the uncached search would give. */
    ghost predicate Valid()
      reads this
    {
      (forall t :: t in thingsRecipes ==> FirstRecipeFor(allDefs, t) == Some(thingsRecipes[t])) &&
      (forall r :: r in recipesIngredientCounts ==> recipesIngredientCounts[r] == Flatten(r.ingredients))
    }

    constructor (allDefs: seq<RecipeDef>)
      ensures Valid()
      ensures this.allDefs == allDefs && thingsRecipes == map[] && recipesIngredientCounts == map[]
    {
      this.allDefs := allDefs;
      thingsRecipes := map[];
      recipesIngredientCounts := map[];
    }

    /** ResourceSettings.RecipeFor: a cached recipe is returned as is; otherwise
        the database is searched and only a recipe actually found is cached. */
    method RecipeFor(thingDef: ThingDef) returns (recipe: Option<RecipeDef>)
      requires Valid()
      modifies this`thingsRecipes
      ensures Valid()
      ensures recipe == FirstRecipeFor(allDefs, thingDef)
      ensures old(thingDef in thingsRecipes) ==> recipe == Some(old(thingsRecipes[thingDef])) && thingsRecipes == old(thingsRecipes)
      ensures thingsRecipes == if recipe.Some? then old(thingsRecipes)[thingDef := recipe.value] else old(thingsRecipes)
    {
      if thingDef in thingsRecipes {
        return Some(thingsRecipes[thingDef]);
      }
      recipe := FirstRecipeFor(allDefs, thingDef);
      if recipe.Some? {
        thingsRecipes := thingsRecipes[thingDef := recipe.value];
      }
    }

    /** Goal.IngredientCountsFor: None for a null recipe, a cached list when
        there is one, and otherwise the flattening, stored before it is returned. */
    method IngredientCountsFor(recipe: Option<RecipeDef>) returns (ingredientCounts: Option<seq<ThingDefCount>>)
      requires Valid()
      modifies this`recipesIngredientCounts
      ensures Valid()
      ensures ingredientCounts == IngredientCountsOf(recipe)
      ensures recipe.Some? && old(recipe.value in recipesIngredientCounts) ==>
                ingredientCounts == Some(old(recipesIngredientCounts[recipe.value])) && recipesIngredientCounts == old(recipesIngredientCounts)
      ensures recipesIngredientCounts ==
                if recipe.Some? then old(recipesIngredientCounts)[recipe.value := ingredientCounts.value] else old(recipesIngredientCounts)
    {
      if recipe.None? {
        return None;
      }
      var rd := recipe.value;
      if rd in recipesIngredientCounts {
        return Some(recipesIngredientCounts[rd]);
      }
      var counts := Flatten(rd.ingredients);
      recipesIngredientCounts := recipesIngredientCounts[rd := counts];
      ingredientCounts := Some(counts);
    }
  }
}
