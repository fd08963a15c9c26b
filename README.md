# Recipe maps: backend, registration helpers and the industrial multi-machine

This project models the core of GregTech's recipe-map machinery in Dafny and
proves properties of the model.

- **The recipe-map backend** (`RecipeMapBackend`) holds every recipe of one
  map. It keeps two lookup indexes, one from item keys to recipes and one from
  fluid names to recipes. Item keys come in two kinds: exact (item and meta)
  and wildcard (meta `32767`).
  - `doAdd` stores a recipe and indexes it.
  - `doAdd(builder)` runs the registration pipeline, candidate by candidate:
    1. it applies the configured duration, and skips a candidate whose
       configured duration is not positive;
    2. it abandons the whole request, returning an empty list and reaching
       no downstream map, when a candidate has both fewer fluid slots and
       fewer item slots than the minimums (null slots count here);
    3. it derives the special value;
    4. it runs the special handler;
    5. it refuses a candidate that collides with a stored recipe;
    6. it fans the builder out to the downstream maps.
  - `findRecipeWithResult` searches through three hooks (overwrite, modify,
    fallback). Around them, `doFind` checks in order:
    1. the empty backend;
    2. the minimum-input guards;
    3. ore-dictionary unification;
    4. the cached recipe;
    5. the item-index buckets;
    6. the fluid-index buckets.
- **The recipe-map utilities** (`GT_RecipeMapUtil`):
  - `appendArray`, `ALL_FAKE_RECIPE` and the `FIRST_*` config-key functions;
  - `cellToFluid`, which turns fluid cells into fluid inputs;
  - `buildOrEmpty`;
  - the addon registry: `registerRecipeMap` and `registerRecipesFor`;
  - the recipe template (`GT_RecipeTemplate`). Its `getAll` gives every
    derivative arrays of its own, so no two derivatives share a slot array.
- **The industrial multi-machine** (`MTEIndustrialMultiMachine`):
  - three machine modes;
  - the `MODE_MAP` that selects a recipe map from the mode and the programmed
    circuit;
  - the processing logic, which drops its cached recipe when the circuit or
    the mode changes and refuses compression recipes;
  - `doCheckRecipe`'s misc-mode search over dual hatches, then solidifier
    hatches, then input buses.

## How the model is built

Recipes and stacks are values (`RecipeTypes`). Code the backend calls but
does not define is passed in as a `Host` of functions:

- recipe input matching, `isRecipeInputEqual`;
- stack comparison, `areStacksEqualOrNull`;
- ore-dictionary unification;
- the config-file duration lookup;
- the post-load flag.

The search hooks are a `Hooks` value. The backend is a class whose indexes
are maps of sets. Its invariant `Valid` says each index is exactly the index
its recipes determine (`RecipeIndex.IndexOf`). The hash maps iterate in an
unspecified order, so the search specification (`RecipeSearch.DoFindSpec`)
is relational. It admits any acceptable recipe of the first bucket that
holds one.

The recipe template is the one place where object identity matters. There a
recipe is a `RecipeObject` with four `array` fields, and `GetAll` works on
them in place. The multi-machine's `process()` call is an oracle function
from an input attempt to a check result.

## Model

| member | source | states |
|---|---|---|
| RecipeTypes.PresentBounds | src/main/java/gregtech/api/recipe/RecipeMapBackend.java:304-319 | The count of non-null slots (what the search's minimum-input guards compare) is at most the slot count, and zero exactly when every slot is null |
| RecipeTypes.CountPresent | src/main/java/gregtech/api/recipe/RecipeMapBackend.java:304-319 | The counting loop over an input array returns the number of non-null slots |
| RecipeIndex.IndexedSpec | src/main/java/gregtech/api/recipe/RecipeMapBackend.java:109-117 | Adding a recipe under a key set puts the recipe in the bucket of every key of the set and leaves every other bucket as it was; the key set of the index grows by exactly those keys |
| RecipeIndex.IndexedNoKeys | src/main/java/gregtech/api/recipe/RecipeMapBackend.java:109-117 | Indexing a recipe under no keys leaves the index unchanged |
| RecipeIndex.IndexedAddKey | src/main/java/gregtech/api/recipe/RecipeMapBackend.java:112-116 | One more step of the per-key loop (`computeIfAbsent(key).add(recipe)`) equals indexing under the enlarged key set |
| RecipeIndex.IndexOfInsert | src/main/java/gregtech/api/recipe/RecipeMapBackend.java:93-104 | The index of a recipe set with one recipe added is the old index with that recipe indexed under its keys, which is how `doAdd` keeps the indexes in step with the recipe collection |
| RecipeIndex.IndexOfMembers | src/main/java/gregtech/api/recipe/RecipeMapBackend.java:221-230 | A recipe is in the bucket of a key exactly when it is stored and that key is one of its input keys |
| RecipeIndex.ItemIndexKeys | src/main/java/gregtech/api/recipe/RecipeMapBackend.java:221-223 | A key has an item bucket exactly when some stored recipe has a non-null input of that item and meta, so null slots are never indexed |
| RecipeIndex.ItemSlotKeysStep | src/main/java/gregtech/api/recipe/RecipeMapBackend.java:109-117 | The keys of one more item slot are that slot's exact key, when it is non-null, added to the keys seen so far |
| RecipeIndex.FluidSlotKeysStep | src/main/java/gregtech/api/recipe/RecipeMapBackend.java:98-102 | The keys of one more fluid slot are that slot's fluid name, when it is non-null, added to the names seen so far |
| RecipeSearch.StateOf | src/main/java/gregtech/api/recipe/RecipeMapBackend.java:209-216 | The index state rebuilt from a recipe set is consistent and holds exactly that set |
| RecipeSearch.DoFindSound | src/main/java/gregtech/api/recipe/RecipeMapBackend.java:293-397 | Whatever `doFind` returns is acceptable for the unified inputs, and it is a stored recipe or the cached recipe when that may be buffered |
| RecipeSearch.DoFindGuards | src/main/java/gregtech/api/recipe/RecipeMapBackend.java:296-319 | An empty backend and inputs below the minimum counts both give "not found". With a nonzero item minimum, a cache miss and no item-bucket hit also give "not found", so the fluid index is never consulted |
| RecipeSearch.DoFindCompleteForItems | src/main/java/gregtech/api/recipe/RecipeMapBackend.java:340-370 | If a stored recipe is acceptable and one of the inputs' exact keys indexes it, the search finds a recipe |
| RecipeSearch.DoFindCompleteForFluids | src/main/java/gregtech/api/recipe/RecipeMapBackend.java:374-393 | With no item minimum, if a stored recipe is acceptable and one of the input fluids indexes it, the search finds a recipe |
| RecipeSearch.FindHooks | src/main/java/gregtech/api/recipe/RecipeMapBackend.java:238-288 | An overwrite hook decides the result alone. With the default hooks the result is exactly `doFind`'s |
| RecipeMapBackend.Backend.constructor | src/main/java/gregtech/api/recipe/RecipeMapBackend.java:47-75 | A new backend is empty, with empty indexes and no downstreams, and is valid |
| RecipeMapBackend.Backend.DoAdd | src/main/java/gregtech/api/recipe/RecipeMapBackend.java:93-104 | The recipe joins the collection and is indexed under its fluid names and item keys. The method returns it and preserves `Valid` |
| RecipeMapBackend.Backend.AddToItemMap | src/main/java/gregtech/api/recipe/RecipeMapBackend.java:109-117 | The item index gains the recipe in the bucket of the exact key (item and meta) of every non-null input, and nothing else changes |
| RecipeMapBackend.Backend.AddToFluidMap | src/main/java/gregtech/api/recipe/RecipeMapBackend.java:95-102 | The fluid index gains the recipe in the bucket of the name of every non-null fluid input, and nothing else changes |
| RecipeMapBackend.Backend.AddDownstream | src/main/java/gregtech/api/recipe/RecipeMapBackend.java:202-204 | The downstream joins the end of the list |
| RecipeMapBackend.Backend.ReInit | src/main/java/gregtech/api/recipe/RecipeMapBackend.java:209-216 | The item index is rebuilt from the stored recipes. On a valid backend this changes nothing |
| RecipeMapBackend.Backend.ContainsItemInput | src/main/java/gregtech/api/recipe/RecipeMapBackend.java:221-223 | On a valid backend the answer is true exactly when some stored recipe has the item's exact or wildcard key as an input key |
| RecipeMapBackend.Backend.ContainsFluidInput | src/main/java/gregtech/api/recipe/RecipeMapBackend.java:228-230 | On a valid backend the answer is true exactly when some stored recipe takes the fluid |
| RecipeMapBackend.Backend.FindRecipeWithResult | src/main/java/gregtech/api/recipe/RecipeMapBackend.java:238-257 | The result follows the hook order: overwrite, or else modify applied to `doFind`'s result with the fallback on a miss |
| RecipeMapBackend.Backend.DoFind | src/main/java/gregtech/api/recipe/RecipeMapBackend.java:293-397 | The result meets the decision order of `doFind` on the backend's current state |
| RecipeMapBackend.Backend.ScanItemIndex | src/main/java/gregtech/api/recipe/RecipeMapBackend.java:340-370 | A recipe is found exactly when some input slot's bucket holds an acceptable recipe, and what is found comes from the first such slot |
| RecipeMapBackend.Backend.ScanFluidIndex | src/main/java/gregtech/api/recipe/RecipeMapBackend.java:374-393 | A recipe is found exactly when some fluid's bucket holds an acceptable recipe, and what is found comes from the first such fluid |
| RecipeMapBackend.Backend.LoopRecipes | src/main/java/gregtech/api/recipe/RecipeMapBackend.java:399-412 | The result is an acceptable member of the bucket, or nothing when no member is acceptable |
| RecipeMapBackend.Backend.DoAddBuilder | src/main/java/gregtech/api/recipe/RecipeMapBackend.java:122-200 | The collision checks run on exactly the screened candidates, in order, each against the recipes stored before it. The stored set grows by exactly the accepted ones. The result is the accepted list, or empty when a candidate abandons the request. Downstreams receive the builder only when something was added. `Valid` is kept |
| RecipeMapBackend.Backend.RegisterCandidate | src/main/java/gregtech/api/recipe/RecipeMapBackend.java:124-191 | One pass of the registration loop: it reports abandonment exactly when the screening abandons the request. An admitted candidate, and only that, is probed and added to the trace. Trace soundness, the accepted and collided lists and `Valid` are kept |
| RecipeMapBackend.Backend.ProbeCandidate | src/main/java/gregtech/api/recipe/RecipeMapBackend.java:154-191 | The admitted candidate is probed against the recipes stored so far and filed as accepted (and stored) or collided. Trace soundness and `Valid` are kept |
| RecipeMapBackend.Backend.CheckAndAdd | src/main/java/gregtech/api/recipe/RecipeMapBackend.java:154-191 | A candidate is added exactly when the collision search on the recipes stored before finds nothing |
| RecipeMapBackend.Backend.FanoutLoop | src/main/java/gregtech/api/recipe/RecipeMapBackend.java:193-198 | Every downstream, in order, receives the builder with its invalid flag cleared |
| RecipeMapBackend.Backend.ScreenCandidate | src/main/java/gregtech/api/recipe/RecipeMapBackend.java:126-153 | The screening of one candidate agrees with the screening function |
| RecipeMapBackend.Fanout | src/main/java/gregtech/api/recipe/RecipeMapBackend.java:193-198 | One dispatch per downstream, in list order, each carrying the same builder |
| RecipeMapBackend.IndexOfEmpty | src/main/java/gregtech/api/recipe/RecipeMapBackend.java:47-75 | The index of no recipes is empty, so a new backend is consistent |
| RecipeRegistration.FirstAliasSpec | src/main/java/gregtech/api/recipe/RecipeMapBackend.java:138-151 | There is no alias exactly when every alias key is absent. Otherwise the first present alias is used |
| RecipeRegistration.DeriveSpecialValue | src/main/java/gregtech/api/recipe/RecipeMapBackend.java:138-151 | The special value is the first present alias, or else the fixed fallback chosen by the builder's flags |
| RecipeRegistration.ScreenOutcomes | src/main/java/gregtech/api/recipe/RecipeMapBackend.java:126-153 | A candidate is dropped by the config exactly when it has a config key and its configured duration is not positive. Otherwise it abandons the request exactly when both its fluid and its item input counts are below the minimums. Without a special handler, an admitted recipe carries a positive configured duration (or its own when it has no config key) and, when its own special value is 0, the derived one |
| RecipeRegistration.ScreenAllAbandons | src/main/java/gregtech/api/recipe/RecipeMapBackend.java:134-137 | Screening abandons the request exactly when some candidate abandons it, and never yields more recipes than candidates |
| RecipeRegistration.ScreenAllAdmitted | src/main/java/gregtech/api/recipe/RecipeMapBackend.java:126-153 | Every screened recipe is the admitted form of some candidate that comes before any abandoning one |
| RecipeRegistration.ScreenAllAdvance | src/main/java/gregtech/api/recipe/RecipeMapBackend.java:124-153 | Screening a suffix by its first candidate: an abandoning one ends the screening, and any other leaves the rest to the next suffix after adding its admitted form, if any, to the candidates checked so far |
| RecipeRegistration.CandidatesOf | src/main/java/gregtech/api/recipe/RecipeMapBackend.java:154-191 | The candidates of a probe trace, pointwise and in order |
| RecipeRegistration.AcceptedCollidedSplit | src/main/java/gregtech/api/recipe/RecipeMapBackend.java:154-191 | Every probed candidate is either accepted (its search found nothing) or collided (its search found a recipe), never both |
| RecipeRegistration.TraceStep | src/main/java/gregtech/api/recipe/RecipeMapBackend.java:154-191 | Extending a sound trace by one probe against the current recipes keeps it sound and extends the accepted or the collided list accordingly |
| RecipeRegistration.DuplicateIsRejected | src/main/java/gregtech/api/recipe/RecipeMapBackend.java:154-190 | A candidate whose inputs match a stored recipe through an indexed key is refused as a collision |
| RecipeMapUtil.AppendArray | src/main/java/gregtech/api/util/GT_RecipeMapUtil.java:53-57 | The result is the array with the value at a new last slot |
| RecipeMapUtil.AllFakeRecipe | src/main/java/gregtech/api/util/GT_RecipeMapUtil.java:25-28 | The recipe is marked fake, and nothing else changes |
| RecipeMapUtil.AllFakeNeverVetoes | src/main/java/gregtech/api/util/GT_RecipeMapUtil.java:25-28 | Used as a special handler, it never vetoes a recipe, and every recipe it admits is fake |
| RecipeMapUtil.FirstKeysSpec | src/main/java/gregtech/api/util/GT_RecipeMapUtil.java:30-43 | Each of FIRST_FLUID_INPUT, FIRST_FLUIDSTACK_INPUT/OUTPUT and FIRST_ITEM_INPUT/OUTPUT gives null exactly for an empty array and otherwise the name of element 0, and never indexes out of bounds |
| RecipeMapUtil.FirstFluidOutputAsWrittenFails | src/main/java/gregtech/api/util/GT_RecipeMapUtil.java:32-33 | As written, a recipe with fluid inputs and no fluid outputs makes the key function index out of bounds, and one with only fluid outputs gets null |
| RecipeMapUtil.FirstFluidOutputSpec | src/main/java/gregtech/api/util/GT_RecipeMapUtil.java:32-33 | The corrected key is null exactly for no fluid outputs, is otherwise the first output's name, and never indexes out of bounds |
| RecipeMapUtil.FirstItemOrFluidAsWrittenFails | src/main/java/gregtech/api/util/GT_RecipeMapUtil.java:44-49 | As written, a recipe with no item inputs (outputs) indexes the empty item array out of bounds, and one with items but no fluids gets null |
| RecipeMapUtil.FirstItemOrFluidSpec | src/main/java/gregtech/api/util/GT_RecipeMapUtil.java:44-49 | The corrected key is null exactly when both arrays are empty. It is the first item's name when there are items, and otherwise the first fluid's name. It never indexes out of bounds |
| RecipeMapUtil.FindingWitness | src/main/java/gregtech/api/util/GT_RecipeMapUtil.java:32-49 | On one recipe with one item input and one fluid output, the as-written FIRST_FLUID_OUTPUT and FIRST_ITEM_OR_FLUID_INPUT give null and FIRST_ITEM_OR_FLUID_OUTPUT faults, while the corrected keys give the fluid output's name, the item's name and the fluid output's name |
| RecipeMapUtil.CellToFluid | src/main/java/gregtech/api/util/GT_RecipeMapUtil.java:97-106 | The backward removal loop keeps exactly the non-cell items in order. It appends the converted fluids of the removed items, last item first |
| RecipeMapUtil.KeptAppend | src/main/java/gregtech/api/util/GT_RecipeMapUtil.java:97-106 | The kept items of a concatenation are the kept items of each part |
| RecipeMapUtil.ConvertedAppend | src/main/java/gregtech/api/util/GT_RecipeMapUtil.java:97-106 | The converted fluids of a concatenation come from the second part first, since the loop runs backwards |
| RecipeMapUtil.KeptConvertedSplit | src/main/java/gregtech/api/util/GT_RecipeMapUtil.java:97-106 | Every item is either kept or converted. The kept items are exactly the non-cell items |
| RecipeMapUtil.CellToFluidSecondPass | src/main/java/gregtech/api/util/GT_RecipeMapUtil.java:71-95 | In `buildRecipeForMultiblock` and its no-circuit variant, the second `cellToFluid` pass removes and converts nothing |
| RecipeMapUtil.BuildOrEmpty | src/main/java/gregtech/api/util/GT_RecipeMapUtil.java:108-110 | The list is empty exactly when the build failed, and is otherwise the single built recipe |
| AddonRegistry.QualifiedIdParts | src/main/java/gregtech/api/util/GT_RecipeMapUtil.java:126 | A qualified id is the mod id, `@`, then the identifier |
| AddonRegistry.QualifiedIdInjective | src/main/java/gregtech/api/util/GT_RecipeMapUtil.java:126 | For mod ids without `@`, distinct (mod id, identifier) pairs give distinct qualified ids |
| AddonRegistry.ApplyAll | src/main/java/gregtech/api/util/GT_RecipeMapUtil.java:128-130 | One `accept` per pending action, in list order, on the same map |
| AddonRegistry.Registry.constructor | src/main/java/gregtech/api/util/GT_RecipeMapUtil.java:50-51 | The registry starts empty and valid |
| AddonRegistry.Registry.RegisterRecipeMap | src/main/java/gregtech/api/util/GT_RecipeMapUtil.java:122-132 | Registering refuses exactly the `gregtech` mod id and then changes nothing. Otherwise it stores the map under `modId@identifier` and runs the pending actions on it in order. No pending action is ever lost (`Valid`) |
| AddonRegistry.Registry.RegisterRecipesFor | src/main/java/gregtech/api/util/GT_RecipeMapUtil.java:144-149 | An action for a registered id runs at once on its map. For any other id it joins the end of the id's pending list |
| AddonRegistry.DeliveredEitherOrder | src/main/java/gregtech/api/util/GT_RecipeMapUtil.java:122-149 | Whether the action or the map is registered first, the action is applied to the map |
| RecipeTemplate.RecipeObject.CopyShallow | src/main/java/gregtech/api/util/GT_RecipeMapUtil.java:162 | A shallow copy shares all four slot arrays with the original |
| RecipeTemplate.Template.constructor | src/main/java/gregtech/api/util/GT_RecipeMapUtil.java:156-159 | The derivative list holds the template exactly when it is included |
| RecipeTemplate.Template.Derive | src/main/java/gregtech/api/util/GT_RecipeMapUtil.java:161-165 | A fresh shallow copy of the template joins the end of the derivatives and is returned |
| RecipeTemplate.Template.GetAll | src/main/java/gregtech/api/util/GT_RecipeMapUtil.java:167-177 | The derivatives are returned. Afterwards each slot keeps its array when it is the first to hold it and otherwise has a newly allocated copy (`fresh`), so no two slots share an array. Every slot's contents are unchanged |
| RecipeTemplate.FixAll | src/main/java/gregtech/api/util/GT_RecipeMapUtil.java:169-174 | The loop over the derivatives: every slot is fixed up, keeps its contents and is held by its recipe, and every later holder holds an array allocated by the loop |
| RecipeTemplate.FixSlot | src/main/java/gregtech/api/util/GT_RecipeMapUtil.java:170-173 | One `references.add` test: a slot whose array was seen before gets a fresh clone with equal contents, and the seen set grows by the slot's original array |
| RecipeTemplate.FixStep | src/main/java/gregtech/api/util/GT_RecipeMapUtil.java:170-173 | The fix-up property for the first k slots extends to k+1 when slot k gets its own array or is the first holder of it |
| RecipeTemplate.ContentsOf | src/main/java/gregtech/api/util/GT_RecipeMapUtil.java:167-177 | Arrays whose contents match a list pointwise have exactly that list of contents |
| IndustrialMultiMachine.RecipeMapFor | src/main/java/gtPlusPlus/xmod/gregtech/common/tileentities/machines/multi/processing/MTEIndustrialMultiMachine.java:280-302 | Ids 0..8 select the nine available maps in their listed order, and any other id gives null |
| IndustrialMultiMachine.CircuitId | src/main/java/gtPlusPlus/xmod/gregtech/common/tileentities/machines/multi/processing/MTEIndustrialMultiMachine.java:249-253 | The id is `3 * mode + (configuration - 20)` for the three modes and configurations 20..22. Any other mode or configuration makes the array access throw |
| IndustrialMultiMachine.CircuitIdSelectsOwnMap | src/main/java/gtPlusPlus/xmod/gregtech/common/tileentities/machines/multi/processing/MTEIndustrialMultiMachine.java:92 | Every valid (mode, configuration) pair selects a map, and two pairs select the same map only when they are equal |
| IndustrialMultiMachine.AvailableMapsDistinct | src/main/java/gtPlusPlus/xmod/gregtech/common/tileentities/machines/multi/processing/MTEIndustrialMultiMachine.java:262-273 | The available maps are pairwise distinct |
| IndustrialMultiMachine.NextMode | src/main/java/gtPlusPlus/xmod/gregtech/common/tileentities/machines/multi/processing/MTEIndustrialMultiMachine.java:525-531 | The next mode is always one of the three, is the cyclic successor of a valid mode, and is metal for any other |
| IndustrialMultiMachine.NextModeCycles | src/main/java/gtPlusPlus/xmod/gregtech/common/tileentities/machines/multi/processing/MTEIndustrialMultiMachine.java:525-531 | Switching modes always changes the mode, and three switches return to the start |
| IndustrialMultiMachine.MaxParallelRecipes | src/main/java/gtPlusPlus/xmod/gregtech/common/tileentities/machines/multi/processing/MTEIndustrialMultiMachine.java:213-216 | A definition without a contract: the source's `2 * tier`, two parallels per voltage tier |
| IndustrialMultiMachine.PollutionPerSecond | src/main/java/gtPlusPlus/xmod/gregtech/common/tileentities/machines/multi/processing/MTEIndustrialMultiMachine.java:218-231 | Each mode uses its own configured pollution, and any mode other than metal and fluid uses the misc value |
| IndustrialMultiMachine.ValidateRecipe | src/main/java/gtPlusPlus/xmod/gregtech/common/tileentities/machines/multi/processing/MTEIndustrialMultiMachine.java:335-339 | A recipe with a positive compression tier is refused as "no recipe", and any other recipe gets the inherited validation |
| IndustrialMultiMachine.CircuitIn | src/main/java/gtPlusPlus/xmod/gregtech/common/tileentities/machines/multi/processing/MTEIndustrialMultiMachine.java:237-247 | A found circuit is an integrated circuit with configuration 20, 21 or 22 |
| IndustrialMultiMachine.CircuitInSpec | src/main/java/gtPlusPlus/xmod/gregtech/common/tileentities/machines/multi/processing/MTEIndustrialMultiMachine.java:237-247 | The scan finds the first mode circuit when everything before it is non-null and no circuit. It throws on the first null element met before any circuit. It finds nothing exactly when every element is non-null and none is a circuit |
| IndustrialMultiMachine.GetCircuit | src/main/java/gtPlusPlus/xmod/gregtech/common/tileentities/machines/multi/processing/MTEIndustrialMultiMachine.java:237-247 | The loop agrees with the scan specification |
| IndustrialMultiMachine.ProcessingLogic.constructor | src/main/java/gtPlusPlus/xmod/gregtech/common/tileentities/machines/multi/processing/MTEIndustrialMultiMachine.java:308-309 | No last circuit, last mode -1, no cached recipe |
| IndustrialMultiMachine.ProcessingLogic.FindRecipeMatches | src/main/java/gtPlusPlus/xmod/gregtech/common/tileentities/machines/multi/processing/MTEIndustrialMultiMachine.java:313-331 | Without a circuit there are no matches and nothing changes, and a null slot before the circuit throws. With a circuit, the cached recipe is dropped exactly when the circuit or the mode changed. Both are remembered. The search runs in the circuit's map, or there are no matches when the id has none, or the id lookup throws |
| IndustrialMultiMachine.Machine.constructor | src/main/java/gtPlusPlus/xmod/gregtech/common/tileentities/machines/multi/processing/MTEIndustrialMultiMachine.java:79-91 | The machine starts in the given mode with no cached recipe |
| IndustrialMultiMachine.Machine.NextMachineMode | src/main/java/gtPlusPlus/xmod/gregtech/common/tileentities/machines/multi/processing/MTEIndustrialMultiMachine.java:525-531 | The machine's cached recipe is cleared and the cyclic next mode is returned |
| IndustrialMultiMachine.InventoryAttempts | src/main/java/gtPlusPlus/xmod/gregtech/common/tileentities/machines/multi/processing/MTEIndustrialMultiMachine.java:386-403 | One attempt per pattern inventory: the hatch's shared items followed by that inventory's items, with its fluids |
| IndustrialMultiMachine.NonNullReversedSpec | src/main/java/gtPlusPlus/xmod/gregtech/common/tileentities/machines/multi/processing/MTEIndustrialMultiMachine.java:436-441 | The collected bus items are exactly the non-null slots, as many as there are |
| IndustrialMultiMachine.CollectBusInputs | src/main/java/gtPlusPlus/xmod/gregtech/common/tileentities/machines/multi/processing/MTEIndustrialMultiMachine.java:436-441 | The backward loop collects the non-null slots, last slot first |
| IndustrialMultiMachine.BusAttemptOf | src/main/java/gtPlusPlus/xmod/gregtech/common/tileentities/machines/multi/processing/MTEIndustrialMultiMachine.java:429-447 | A crafting-input bus gives no attempt. Any other bus gives one attempt: its non-null slots from the last down, the controller slot when it may be used and is not empty, and the stored fluids |
| IndustrialMultiMachine.BuildBusAttempts | src/main/java/gtPlusPlus/xmod/gregtech/common/tileentities/machines/multi/processing/MTEIndustrialMultiMachine.java:428-454 | The loop over the input buses skips crafting-input buses. For every other bus it builds one attempt from its non-null slots, the controller slot when allowed, and the stored fluids |
| IndustrialMultiMachine.Results | src/main/java/gtPlusPlus/xmod/gregtech/common/tileentities/machines/multi/processing/MTEIndustrialMultiMachine.java:378-457 | One `process()` result per attempt, pointwise |
| IndustrialMultiMachine.ResultsAppend | src/main/java/gtPlusPlus/xmod/gregtech/common/tileentities/machines/multi/processing/MTEIndustrialMultiMachine.java:378-457 | The results of consecutive attempt groups are the concatenated results |
| IndustrialMultiMachine.SettleAppend | src/main/java/gtPlusPlus/xmod/gregtech/common/tileentities/machines/multi/processing/MTEIndustrialMultiMachine.java:378-457 | Running two attempt groups one after the other is running the second from where the first left off, unless the first succeeded |
| IndustrialMultiMachine.SettleSpec | src/main/java/gtPlusPlus/xmod/gregtech/common/tileentities/machines/multi/processing/MTEIndustrialMultiMachine.java:378-457 | The check succeeds exactly when some attempt succeeds, and then it is the first success. Otherwise it is the last result other than "no recipe", or the starting result when every attempt gave "no recipe" |
| IndustrialMultiMachine.RunAttempts | src/main/java/gtPlusPlus/xmod/gregtech/common/tileentities/machines/multi/processing/MTEIndustrialMultiMachine.java:378-457 | The loop that stops at the first success and otherwise keeps the last informative result agrees with the settling specification |
| IndustrialMultiMachine.DoCheckRecipe | src/main/java/gtPlusPlus/xmod/gregtech/common/tileentities/machines/multi/processing/MTEIndustrialMultiMachine.java:378-457 | Outside misc mode the inherited check runs. In misc mode the result settles the attempts from the dual hatches, then the solidifier hatches, then the buses, starting from "no recipe" |

## Left out

- `reInit`'s ore-dictionary unification of the stored input stacks is not modelled. A stack is a value here, so the rebuilt index equals the old one on a valid backend.
- `RecipeMapBackend.Backend.DoAddBuilder` does not model the text of the collision report, nor the logging around it. The collided recipes are returned as a list.
- The hash-map and hash-set iteration order is unspecified in the model. The scans pick any acceptable recipe of a bucket, and the search specification is relational.
- Recipes are values, not objects, so two equal recipes are one element of the recipe set. Identity matters only in the template, which models recipe objects and arrays.
- `Host` functions stand in for code outside this model: recipe input matching, stack comparison, ore-dictionary unification, the config-file duration lookup and the post-load flag. The config-name functions of the `FIRST_*` keys (`RecipeMapUtil.Names`) are parameters too.
- `registerRecipeMap`'s active mod id (from the mod loader) is a parameter. `RecipeMapDependency` is left out: it is unused by the registry.
- `RecipeTemplate.Template.GetAll` uses one identity set for item arrays and one for fluid arrays where the source uses a single set. The two kinds of array never alias each other, so the outcome is the same.
- `IndustrialMultiMachine.MaxParallelRecipes` takes the voltage tier as a parameter. `GTUtility.getTier` of the hatch voltage is not part of this model.
- `IndustrialMultiMachine.DoCheckRecipe` models `processingLogic.process()` as a pure oracle from an attempt to a result. The logic's internal state changes during a process call are not tracked, nor are its speed bonus, EU modifier and parallel supplier (floating point).
- `IndustrialMultiMachine.DoCheckRecipe` flattens the dual-hatch loops (hatch, then pattern inventory) into one ordered list of attempts. This keeps the order and the early return on success.
- `IndustrialMultiMachine.SolidifierAttempts` does not model the solidifier `items.add` mutating the hatch's own list across calls. Each attempt is built from the hatch's non-consumables plus circuit 22.
- The stored fluids of input buses (`getStoredFluids`) and the controller slot are inputs of the model.
- Recipe slot arrays (`mInputs`, `mOutputs`, `mFluidInputs`, `mFluidOutputs`) are never null in this model: a sequence cannot be null. The source's `isArrayEmptyOrNull` also accepts a null array, and `FIRST_ITEM_OR_FLUID_INPUT` would then throw a null-pointer exception rather than index out of bounds; registration reads `.length` of these arrays unguarded, so they must be non-null there anyway.
- Java `null` elements are `Option` values, and a null-pointer or index-out-of-bounds exception is an explicit result variant.
- The multi-machine's tooltip, GUI, NBT, Waila, sound and texture code is not part of this model, nor are its structure definition and casing checks.
- Integer overflow is not modelled: every quantity here (counts, durations, ids, tiers) stays far below 32-bit limits.

## Findings

| source | as written | input that shows it | evidently intended | confidence | as-written member | corrected member |
|---|---|---|---|---|---|---|
| src/main/java/gregtech/api/util/GT_RecipeMapUtil.java:32-33 | FIRST_FLUID_OUTPUT tests whether the fluid INPUTS are empty, then reads element 0 of the fluid OUTPUTS | a recipe with one fluid input and no fluid output: `mFluidOutputs[0]` is out of bounds | test the fluid outputs, then read the first fluid output's name | not executed | RecipeMapUtil.FirstFluidOutputAsWritten (RecipeMapUtil.FirstFluidOutputAsWrittenFails, RecipeMapUtil.FindingWitness) | RecipeMapUtil.FirstFluidOutput (RecipeMapUtil.FirstFluidOutputSpec) |
| src/main/java/gregtech/api/util/GT_RecipeMapUtil.java:44-49 | FIRST_ITEM_OR_FLUID_INPUT/OUTPUT read item element 0 exactly when the item array IS empty, and otherwise fall to the fluid branch | a recipe with no item input: `mInputs[0]` is out of bounds. A recipe with an item input and no fluid input gets null | use the first item when there are items, else the first fluid, else null | not executed | RecipeMapUtil.FirstItemOrFluidInputAsWritten, RecipeMapUtil.FirstItemOrFluidOutputAsWritten (RecipeMapUtil.FirstItemOrFluidAsWrittenFails, RecipeMapUtil.FindingWitness) | RecipeMapUtil.FirstItemOrFluidInput, RecipeMapUtil.FirstItemOrFluidOutput (RecipeMapUtil.FirstItemOrFluidSpec) |
