# Resource Goal Tracker: the deficit engine

Resource Goal Tracker is a RimWorld mod. It shows, next to the resource readout, what the colony still lacks for a goal, such as one ship reactor or a whole spaceship. A goal is a dictionary of parts with target quantities. On every resource-counter tick the current goal recomputes its `resourceAmounts`, which is also a dictionary from thing kinds to amounts, in four stages:

1. **Remaining parts.** For each part, its target less what the current map holds of it, never below 0. The stock count includes buildings but not equipped things.
2. **Direct cost.** For every part, including one with nothing remaining, each entry of the part's construction cost list is added onto `costs`: remaining times the entry's count.
3. **One expansion level.** `deepCosts` starts as a copy of `costs`. For each intermediate in `costs` that some recipe produces, each flattened ingredient of that recipe is set to:
   - its own direct cost,
   - plus the part of the intermediate the resource counter does not cover,
   - times the ingredient's per-unit count.

   This is an assignment, not an addition, so when two intermediates share an ingredient, the later one overwrites the earlier one.
4. **Clamp.** Every entry less what the resource counter holds, never below 0.

The first recipe producing a thing is cached per thing, and a recipe's flattened ingredient list is cached per recipe. The two colonist presets re-evaluate their cryptosleep-casket target from the colonist count before recomputing. Choosing a goal in the menu makes it current and recomputes it at once.

The model keeps the source's shape:
- **Functions:** the stages as left folds over each dictionary's enumeration order; the searches (first producing recipe, ingredient flattening); the stock count per category.
- **Methods:** the loops, the caches and the current goal. Each method is proved equal to the functions above; the caches must agree with the uncached search.
- **Lemmas:** what the source promises about the folds. This covers sums, keys, last-write-wins, zero and monotonicity, well-formedness, and worked cases.

Files:
- `defs.dfy`: the host's definitions.
- `counts.dfy`: the insertion-ordered dictionary.
- `stock_counter.dfy`: `CountAll`.
- `recipes.dfy`: the two searches and their caches.
- `cost_aggregator.dfy`: the stages and their lemmas.
- `goals.dfy`: the loops, `Goal`, and the mod object.
- `scenarios.dfy`: worked cases.

A C# `Dictionary<ThingDef,int>` that never loses a key enumerates in insertion order. It is modelled as `ThingCounts(order, amounts)`: writing a new key appends it to `order`, and writing an existing key keeps its place.

The direct cost loop (lines 94-96) visits every part, including one with nothing remaining, so that part still puts its cost keys, with value 0, into the result (`Scenarios.ReactorBuilt`).

## Model

| member | source | states |
|---|---|---|
| Counts.Max | Source/ResourceGoalTracker.cs:91 | Math.Max: the result is at least each argument and equals one of them |
| Counts.Put | Source/ResourceGoalTracker.cs:96 | the dictionary indexer write: the key is added to the key set, reads back the written value, and every other key keeps its value |
| Counts.PutWellFormed | Source/ResourceGoalTracker.cs:89-91 | an indexer write keeps every key listed exactly once in enumeration order; overwriting an existing key leaves the order unchanged, and a new key is appended at the end |
| Counts.AppendNewPrefix | Source/ResourceGoalTracker.cs:96 | writing keys one after another into an ordered dictionary never moves a key already there, and the keys afterwards are the old ones plus those written |
| Counts.AppendNewAppend | Source/ResourceGoalTracker.cs:96 | writing one sequence of keys and then another leaves the same order as writing their concatenation |
| Defs.LastCountOf | Source/ResourceGoalTracker.cs:105-106 | the count of the last list entry naming a thing: 0 when no entry names it, otherwise some entry naming it with that count and no later entry naming it |
| StockCounter.CountAll | Source/ResourceGoalTracker.cs:113-139 | one entry per requested kind, holding the sum of that kind's seven categories under the two flags |
| StockCounter.ListedCountBuildings | Source/ResourceGoalTracker.cs:120 | counting buildings adds exactly the buildings' stack counts to the listed count |
| StockCounter.BulkBranchExclusive | Source/ResourceGoalTracker.cs:117-123 | a kind counted as a resource is counted from the resource counter alone, ignoring its listed and minified things; any other kind never reads the counter |
| StockCounter.StockOfFlags | Source/ResourceGoalTracker.cs:120-132 | includeEquipped adds exactly the equipped, worn and held stacks; includeBuildings adds exactly the building stacks of a kind not counted as a resource |
| StockCounter.StockOfMonotone | Source/ResourceGoalTracker.cs:117-134 | a resource counter holding more never lowers a kind's count |
| Recipes.FirstRecipeFor | Source/ResourceGoalTracker.cs:39 | FirstOrDefault: None exactly when no recipe produces the thing; otherwise a recipe at some index that produces it, with no earlier recipe producing it |
| Recipes.Flatten | Source/ResourceGoalTracker.cs:73-77 | an entry is in the flattened list exactly when some ingredient slot lists it |
| Recipes.FlattenAppend | Source/ResourceGoalTracker.cs:73-77 | flattening distributes over concatenating slot lists, so earlier slots' entries come first |
| Recipes.IngredientCountsOf | Source/ResourceGoalTracker.cs:66-79 | null for a null recipe, otherwise the recipe's flattened ingredients |
| Recipes.RecipeIndex.constructor | Source/ResourceGoalTracker.cs:31 | both caches start empty, which is consistent with the searches |
| Recipes.RecipeIndex.RecipeFor | Source/ResourceGoalTracker.cs:36-43 | returns the first producing recipe; on a cache hit returns the cached recipe and leaves the cache unchanged; caches only a recipe actually found; every cached entry stays equal to the search |
| Recipes.RecipeIndex.IngredientCountsFor | Source/ResourceGoalTracker.cs:66-79 | null for a null recipe; on a cache hit returns the cached list and leaves the cache unchanged; otherwise stores and returns the flattening; every cached entry stays equal to the flattening |
| CostAggregator.RemainingOverValue | Source/ResourceGoalTracker.cs:89-91 | a thing has an entry exactly when it is a visited part, and that entry is its target less its counted stock (a missing count read as 0), never below 0 |
| CostAggregator.RemainingOverOrder | Source/ResourceGoalTracker.cs:89-91 | distinct parts appear in remainingParts in the order they were visited |
| CostAggregator.RemainingPartsValues | Source/ResourceGoalTracker.cs:88-91 | remainingParts has the goal's keys in the goal's order, each holding max(target - counted, 0) |
| CostAggregator.AddCostListValues | Source/ResourceGoalTracker.cs:95-96 | adding a cost list scaled by an amount raises each thing by amount times its total count in the list; the keys gain exactly the things the list names |
| CostAggregator.CostsOverSum | Source/ResourceGoalTracker.cs:93-96 | each direct cost is the sum over the parts of remaining times the part's cost count of that thing |
| CostAggregator.CostsOverKeys | Source/ResourceGoalTracker.cs:93-96 | a thing has a direct cost entry exactly when some part's cost list names it, even when that part has nothing remaining |
| CostAggregator.WriteIngredientsValues | Source/ResourceGoalTracker.cs:105-106 | after one intermediate's inner loop, an ingredient it names holds its direct cost plus costCount times the ingredient's last listed count; every other entry is untouched |
| CostAggregator.ExpandOverLastWriteWins | Source/ResourceGoalTracker.cs:99-107 | each deep cost is the write of the last intermediate, in enumeration order, whose ingredients name the thing, or the direct cost when none does; the keys are the direct cost keys plus those written |
| CostAggregator.LaterIntermediateOverwrites | Source/ResourceGoalTracker.cs:106 | once a later intermediate writes a sub-ingredient, what earlier intermediates contributed to it is gone |
| CostAggregator.AccumulateOverIsDeepSum | Source/ResourceGoalTracker.cs:106 | the expansion with the running total as base gives the direct cost plus the sum of every intermediate's contribution |
| CostAggregator.Clamp | Source/ResourceGoalTracker.cs:109 | same keys in the same order; every entry non-negative; an entry is 0 exactly when the counter covers it, otherwise it plus the counter's count is the deep cost |
| CostAggregator.Deficit | Source/ResourceGoalTracker.cs:87-111 | every entry of resourceAmounts is non-negative |
| CostAggregator.AddCostListWellFormed | Source/ResourceGoalTracker.cs:95-96 | adding a cost list keeps each key listed once |
| CostAggregator.CostsOverWellFormed | Source/ResourceGoalTracker.cs:93-96 | costs lists each key once |
| CostAggregator.WriteIngredientsWellFormed | Source/ResourceGoalTracker.cs:105-106 | one intermediate's writes keep each key listed once |
| CostAggregator.ExpandOverWellFormed | Source/ResourceGoalTracker.cs:99-107 | deepCosts lists each key once |
| CostAggregator.DeficitWellFormed | Source/ResourceGoalTracker.cs:87-111 | resourceAmounts lists each of its keys exactly once |
| CostAggregator.RemainingOverZero | Source/ResourceGoalTracker.cs:89-91 | parts counted at or above their target leave nothing remaining |
| CostAggregator.AddCostListZero | Source/ResourceGoalTracker.cs:95-96 | a cost list scaled by 0 keeps all-zero costs all zero |
| CostAggregator.CostsOverZero | Source/ResourceGoalTracker.cs:93-96 | nothing remaining gives zero direct costs |
| CostAggregator.WriteIngredientsZero | Source/ResourceGoalTracker.cs:105-106 | with nothing missing of the intermediate, its writes keep all-zero deep costs all zero |
| CostAggregator.AddCostListOrder | Source/ResourceGoalTracker.cs:95-96 | adding a cost list appends the things it names that are not yet keys, in the order the list first names them |
| CostAggregator.CostsOverOrder | Source/ResourceGoalTracker.cs:93-96 | costs enumerates the things of the parts' cost lists, concatenated part by part, in order of first appearance |
| CostAggregator.WriteIngredientsOrder | Source/ResourceGoalTracker.cs:105-106 | one intermediate's writes append the ingredients that are not yet keys, in the order it first writes them |
| CostAggregator.ExpandOverOrder | Source/ResourceGoalTracker.cs:98-107 | deepCosts enumerates the keys of costs in their order, then the newly written ingredients in order of first write |
| CostAggregator.ExpandOverKeepsCostOrder | Source/ResourceGoalTracker.cs:98-107 | the order of costs is a prefix of the order of deepCosts |
| CostAggregator.DeficitOrder | Source/ResourceGoalTracker.cs:87-111 | resourceAmounts, which the readout lists in its enumeration order (line 238), enumerates the direct cost things in order of first appearance in the parts' cost lists, then the ingredients their expansion first writes; the map does not affect the order |
| CostAggregator.ExpandOverZero | Source/ResourceGoalTracker.cs:99-107 | zero direct costs expand to zero deep costs |
| CostAggregator.SatisfiedGoalAllZero | Source/ResourceGoalTracker.cs:87-111 | a goal whose every part is on the map in at least its target quantity gets all-zero resourceAmounts |
| CostAggregator.RemainingOverMonotone | Source/ResourceGoalTracker.cs:89-91 | higher counts leave no part with more remaining, with the same keys and order |
| CostAggregator.AddCostListMonotone | Source/ResourceGoalTracker.cs:95-96 | lower costs and a lower amount give no higher result, with the same keys and order |
| CostAggregator.CostsOverMonotone | Source/ResourceGoalTracker.cs:93-96 | lower remaining amounts give no higher direct cost, with the same keys and order |
| CostAggregator.WriteIngredientsMonotone | Source/ResourceGoalTracker.cs:105-106 | lower inputs to one intermediate's writes give no higher result, with the same keys and order |
| CostAggregator.ExpandOverMonotone | Source/ResourceGoalTracker.cs:99-107 | lower direct costs and a counter holding more give no higher deep cost, with the same keys and order |
| CostAggregator.DeficitMonotone | Source/ResourceGoalTracker.cs:87-111 | more stock, both of every part as CountAll counts it and in the resource counter, raises no entry of resourceAmounts and keeps its keys and order |
| CostAggregator.DeficitMonotoneInCounter | Source/ResourceGoalTracker.cs:87-134 | in particular, a resource counter holding more, every other holding equal, raises no entry of resourceAmounts |
| Goals.ApplyRule | Source/ResourceGoalTracker.cs:179-185 | the casket target becomes the map's colonist count or all colonists' count; every other part keeps its target; no rule changes nothing; well-formedness is kept |
| Goals.RemainingPartsLoop | Source/ResourceGoalTracker.cs:89-91 | the parts loop computes remainingParts |
| Goals.DirectCostsLoop | Source/ResourceGoalTracker.cs:93-96 | the nested cost loops compute costs |
| Goals.AddCostListLoop | Source/ResourceGoalTracker.cs:95-96 | the inner cost loop adds one part's cost list |
| Goals.ExpandLoop | Source/ResourceGoalTracker.cs:99-107 | the expansion loop computes deepCosts through the caches, which stay consistent |
| Goals.WriteIngredientsLoop | Source/ResourceGoalTracker.cs:105-106 | the inner expansion loop writes one intermediate's ingredients |
| Goals.Goal.constructor | Source/ResourceGoalTracker.cs:61-64 | a goal holds its parts and rule, with no amounts yet |
| Goals.Goal.UpdateResourceAmounts | Source/ResourceGoalTracker.cs:87-111 | resourceAmounts becomes the deficit of the parts on the current map; the caches stay consistent |
| Goals.Goal.CounterTick | Source/ResourceGoalTracker.cs:81-84 | this goal's rule is applied to the current goal's parts, no other goal's parts change, then this goal's amounts are recomputed |
| Goals.Tracker.constructor | Source/ResourceGoalTracker.cs:174-186 | the four presets hold their parts and rules; the reactor-only goal is current |
| Goals.Tracker.Tick | Source/ResourceGoalTracker.cs:189-195 | the current goal runs its rule on itself and recomputes |
| Goals.Tracker.SwitchTo | Source/ResourceGoalTracker.cs:154-157 | the chosen goal becomes current, its rule is applied, and its amounts are rebuilt from the current map |
| Scenarios.ReactorDeficit | Source/ResourceGoalTracker.cs:87-111 | for a reactor costing 3 components, each made from 2 raw metal, on any map: components then raw metal, with the closed-form amounts |
| Scenarios.NothingStocked | Source/ResourceGoalTracker.cs:87-111 | on an empty map the reactor needs 3 components and 6 raw metal |
| Scenarios.OneComponentStocked | Source/ResourceGoalTracker.cs:104-109 | with one component in the counter: 2 components and 4 raw metal |
| Scenarios.ReactorBuilt | Source/ResourceGoalTracker.cs:94-96 | with the reactor already built, both resource entries are present and 0 |
| Scenarios.OverwriteLosesRawMetal | Source/ResourceGoalTracker.cs:106 | a console made from a component and a chip, each needing one raw metal, is shown as needing 1 raw metal; accumulating would give 2 |

## Left out

- The user interface is not modelled: the resource readout drawing (lines 198-256), the goal menu's option labels and icons (lines 141-172 apart from the option action), and its conditional listing of the colonist presets.
- Harmony patching and the HugsLib lifecycle are not modelled. DefsLoaded becomes the `Tracker` constructor, and the resource-counter patch becomes `Tracker.Tick`.
- `ResourceSettings.ExposeData` (lines 45-51) is not modelled. It saves and reloads the recipe cache, restoring whatever mapping was saved under whatever recipe database was loaded then. If the mod list has changed since, a restored entry need not be the first producing recipe in the current database, and `RecipeFor` returns it without searching (lines 37-38). The model assumes, through `RecipeIndex.Valid`, that every cached entry agrees with the search; the source does not guarantee this for a reloaded cache.
- The live world is not read. Find.CurrentMap, its lister, pawns and resource counter become a `MapSnapshot` that already groups each kind's stacks by category. The two colonist counts become a `ColonistCounts` parameter.
- ShipUtility.RequiredParts is a constructor parameter.
- `CountRequiredOfFor` and the ingredient filters' contents are host data. Each ingredient slot is given as its allowed things with their required counts.
- A null construction cost list is read as empty; the source would throw on it.
- Integers are unbounded. The source's 32-bit `int` sums and products could overflow, which the model does not capture.
- StockCounter.CountAll: requires distinct kinds. The source's Dictionary.Add throws on a repeated key, but its only caller passes a dictionary's keys.
- CostAggregator.Deficit: its own contract states only non-negativity. The lemmas beside it state the rest: well-formedness (`DeficitWellFormed`), enumeration order (`DeficitOrder`), values stage by stage (`RemainingPartsValues`, `CostsOverSum`, `ExpandOverLastWriteWins`, `Clamp`), zeros (`SatisfiedGoalAllZero`) and monotonicity (`DeficitMonotone`).
- The overwrite at line 106 is modelled as written. `AccumulateOver` is the accumulating alternative, defined beside it and related to it by `Scenarios.OverwriteLosesRawMetal`; the rest of the model uses the source's behaviour.
- Aliasing between goals is modelled only as far as the source allows. Each preset owns its own parts dictionary, and `CounterTick` may update the current goal's parts, which may be the goal itself.
