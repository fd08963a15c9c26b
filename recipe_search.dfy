/** What a recipe search may return: the decision order of `doFind` (empty
    backend, minimum-input guards, unification, cached recipe, item-bucket scan,
    fluid-bucket scan) and the three search hooks of `findRecipeWithResult`.
    Bucket iteration order is unspecified, so a scan may return any acceptable
    recipe of the first bucket that holds one. */
module RecipeSearch {
  import opened RecipeTypes
  import opened RecipeIndex

  /** The arguments of a search call. `validator` is the caller's recipe
      predicate; `cachedRecipe` is the recipe found last time, if any. */
  datatype Query = Query(
    items: seq<Option<ItemStack>>,
    fluids: seq<Option<FluidStack>>,
    specialSlot: Option<ItemStack>,
    validator: Recipe -> bool,
    cachedRecipe: Option<Recipe>,
    notUnificated: bool,
    dontCheckStackSizes: bool)

  datatype FindResult = NotFound | Found(recipe: Recipe)

  /** The overridable search steps of a backend subclass: a replacement for the
      whole search (`doesOverwriteFindRecipe`/`overwriteFindRecipe`), the
      rewrite of a found result (`modifyFoundRecipe`) and the search on a miss
      (`findFallback`). */
  datatype Hooks = Hooks(
    overwriteFind: Option<Query -> FindResult>,
    modifyFound: (FindResult, Query) -> FindResult,
    findFallback: Query -> FindResult)

  /** The hooks of the base class: no override, identity rewrite, no fallback. */
  ghost predicate DefaultHooks(hooks: Hooks)
  {
    && hooks.overwriteFind.None?
    && (forall d, q :: hooks.modifyFound(d, q) == d)
    && (forall q :: hooks.findFallback(q) == NotFound)
  }

  /** The three contents of a backend: all recipes, the item index and the
      fluid index. */
  datatype IndexState = IndexState(
    all: set<Recipe>,
    items: map<ItemKey, set<Recipe>>,
    fluids: map<string, set<Recipe>>)

  /** The indexes are those the set of all recipes determines. */
  predicate Consistent(st: IndexState)
  {
    st.items == IndexOf(st.all, ItemKeysOf) && st.fluids == IndexOf(st.all, FluidKeysOf)
  }

  /** The consistent state holding exactly the recipes of `all`. */
  function StateOf(all: set<Recipe>): (st: IndexState)
    ensures Consistent(st) && st.all == all
  {
    IndexState(all, IndexOf(all, ItemKeysOf), IndexOf(all, FluidKeysOf))
  }

  /** A recipe the search may return for a query: not fake, inputs present,
      special slot matching when the backend is sensitive to it, enabled, and
      accepted by the caller's validator. */
  predicate Acceptable(r: Recipe, q: Query, props: BackendProperties, host: Host)
  {
    && !r.fake
    && host.inputEqual(r, q.items, q.fluids, q.dontCheckStackSizes)
    && (!props.specialSlotSensitive || host.stacksEqualOrNull(r.specialItem, q.specialSlot))
    && r.enabled
    && q.validator(r)
  }

  /** The query with its items unified, when the caller says they are not. */
  function Unified(q: Query, host: Host): Query
  {
    if q.notUnificated then q.(items := host.unify(q.items)) else q
  }

  /** The minimum-input guard: after postload, too few non-null fluids or too
      few non-null items for this backend. */
  predicate BelowMinimums(q: Query, props: BackendProperties, host: Host)
  {
    && host.postloadFinished
    && ((props.minFluidInputs > 0 && Present(q.fluids) < props.minFluidInputs)
        || (props.minItemInputs > 0 && Present(q.items) < props.minItemInputs))
  }

  /** The cached recipe may be returned without a scan: it is bufferable and
      acceptable for the query. */
  predicate CacheHit(q: Query, props: BackendProperties, host: Host)
  {
    q.cachedRecipe.Some? && q.cachedRecipe.value.canBeBuffered && Acceptable(q.cachedRecipe.value, q, props, host)
  }

  /** Some recipe of the bucket under `k` is acceptable. */
  predicate BucketHit<K>(index: map<K, set<Recipe>>, k: K, q: Query, props: BackendProperties, host: Host)
  {
    exists r :: r in Bucket(index, k) && Acceptable(r, q, props, host)
  }

  /** The exact or the wildcard bucket of a presented item holds an acceptable
      recipe. */
  predicate ItemSlotHit(index: map<ItemKey, set<Recipe>>, slot: Option<ItemStack>, q: Query,
                        props: BackendProperties, host: Host)
  {
    slot.Some? && (BucketHit(index, ExactKey(slot.value), q, props, host)
                   || BucketHit(index, WildcardKey(slot.value), q, props, host))
  }

  /** Item `i` is the first presented item with a hit. */
  predicate FirstItemHitAt(index: map<ItemKey, set<Recipe>>, q: Query, i: int, props: BackendProperties, host: Host)
  {
    && 0 <= i < |q.items|
    && ItemSlotHit(index, q.items[i], q, props, host)
    && forall j :: 0 <= j < i ==> !ItemSlotHit(index, q.items[j], q, props, host)
  }

  /** `r` may be the pick for item `s`: an acceptable recipe of its exact
      bucket, or of its wildcard bucket when the exact one has none. */
  predicate ItemPick(index: map<ItemKey, set<Recipe>>, s: ItemStack, r: Recipe, q: Query,
                     props: BackendProperties, host: Host)
  {
    && Acceptable(r, q, props, host)
    && (if BucketHit(index, ExactKey(s), q, props, host) then r in Bucket(index, ExactKey(s))
        else r in Bucket(index, WildcardKey(s)))
  }

  predicate AnyItemHit(index: map<ItemKey, set<Recipe>>, q: Query, props: BackendProperties, host: Host)
  {
    exists i :: 0 <= i < |q.items| && ItemSlotHit(index, q.items[i], q, props, host)
  }

  /** The bucket of a presented fluid holds an acceptable recipe. */
  predicate FluidSlotHit(index: map<string, set<Recipe>>, slot: Option<FluidStack>, q: Query,
                         props: BackendProperties, host: Host)
  {
    slot.Some? && BucketHit(index, slot.value.fluid, q, props, host)
  }

  predicate FirstFluidHitAt(index: map<string, set<Recipe>>, q: Query, i: int, props: BackendProperties, host: Host)
  {
    && 0 <= i < |q.fluids|
    && FluidSlotHit(index, q.fluids[i], q, props, host)
    && forall j :: 0 <= j < i ==> !FluidSlotHit(index, q.fluids[j], q, props, host)
  }

  predicate AnyFluidHit(index: map<string, set<Recipe>>, q: Query, props: BackendProperties, host: Host)
  {
    exists i :: 0 <= i < |q.fluids| && FluidSlotHit(index, q.fluids[i], q, props, host)
  }

  /** The possible outcomes of the index scan on an already unified query:
      items first, then fluids only for a backend whose minimum item-input
      count is 0. */
  ghost predicate ScanSpec(st: IndexState, props: BackendProperties, host: Host, q: Query, d: FindResult)
  {
    if AnyItemHit(st.items, q, props, host) then
      d.Found? && exists i :: FirstItemHitAt(st.items, q, i, props, host) && ItemPick(st.items, q.items[i].value, d.recipe, q, props, host)
    else if props.minItemInputs == 0 && AnyFluidHit(st.fluids, q, props, host) then
      d.Found? && exists i :: FirstFluidHitAt(st.fluids, q, i, props, host)
                           && d.recipe in Bucket(st.fluids, q.fluids[i].value.fluid)
                           && Acceptable(d.recipe, q, props, host)
    else
      d == NotFound
  }

  /** The possible outcomes of `doFind`. */
  ghost predicate DoFindSpec(st: IndexState, props: BackendProperties, host: Host, q: Query, d: FindResult)
  {
    if st.all == {} then d == NotFound
    else if BelowMinimums(q, props, host) then d == NotFound
    else
      var u := Unified(q, host);
      if CacheHit(u, props, host) then d == Found(u.cachedRecipe.value)
      else ScanSpec(st, props, host, u, d)
  }

  /** The possible outcomes `res` of `findRecipeWithResult`, where `inner` is
      the result of the default search it ran (irrelevant under an override). */
  ghost predicate FindSpec(st: IndexState, props: BackendProperties, hooks: Hooks, host: Host,
                           q: Query, inner: FindResult, res: FindResult)
  {
    if hooks.overwriteFind.Some? then res == hooks.overwriteFind.value(q)
    else DoFindSpec(st, props, host, q, inner)
         && res == (if inner.Found? then hooks.modifyFound(inner, q) else hooks.findFallback(q))
  }

  /** Soundness of the default search: a recipe it finds in a consistent
      backend is acceptable for the unified query, and it is either a recipe of
      the backend or the bufferable cached recipe. */
  lemma {:induction false} DoFindSound(st: IndexState, props: BackendProperties, host: Host, q: Query, d: FindResult)
    requires Consistent(st)
    requires DoFindSpec(st, props, host, q, d) && d.Found?
    ensures Acceptable(d.recipe, Unified(q, host), props, host)
    ensures d.recipe in st.all || (q.cachedRecipe == Some(d.recipe) && d.recipe.canBeBuffered)
  {
    var u := Unified(q, host);
    if !CacheHit(u, props, host) {
      if AnyItemHit(st.items, u, props, host) {
        var i :| FirstItemHitAt(st.items, u, i, props, host) && ItemPick(st.items, u.items[i].value, d.recipe, u, props, host);
        var s := u.items[i].value;
        var k := if BucketHit(st.items, ExactKey(s), u, props, host) then ExactKey(s) else WildcardKey(s);
        IndexOfMembers(st.all, ItemKeysOf, k, d.recipe);
      } else {
        var i :| FirstFluidHitAt(st.fluids, u, i, props, host)
                 && d.recipe in Bucket(st.fluids, u.fluids[i].value.fluid) && Acceptable(d.recipe, u, props, host);
        IndexOfMembers(st.all, FluidKeysOf, u.fluids[i].value.fluid, d.recipe);
      }
    }
  }

  /** The guards of the default search: nothing is found in an empty backend,
      or after postload when the non-null inputs are below the minimums, and
      the fluid index is consulted only when the minimum item-input count is 0. */
  lemma DoFindGuards(st: IndexState, props: BackendProperties, host: Host, q: Query, d: FindResult)
    requires DoFindSpec(st, props, host, q, d)
    ensures st.all == {} ==> d == NotFound
    ensures BelowMinimums(q, props, host) ==> d == NotFound
    ensures (props.minItemInputs != 0 && !CacheHit(Unified(q, host), props, host)
             && !AnyItemHit(st.items, Unified(q, host), props, host)) ==> d == NotFound
  {
  }

  /** Completeness of the item scan: if a recipe of a consistent backend is
      acceptable for the unified query and one of its item inputs has the exact
      key of a presented item (or that item's wildcard key), and the guards let
      the search through, the default search finds some recipe. */
  lemma {:induction false} DoFindCompleteForItems(st: IndexState, props: BackendProperties, host: Host, q: Query,
                                                 d: FindResult, r: Recipe, i: int)
    requires Consistent(st)
    requires DoFindSpec(st, props, host, q, d)
    requires r in st.all && Acceptable(r, Unified(q, host), props, host)
    requires !BelowMinimums(q, props, host)
    requires 0 <= i < |Unified(q, host).items| && Unified(q, host).items[i].Some?
    requires ExactKey(Unified(q, host).items[i].value) in ItemKeysOf(r)
             || WildcardKey(Unified(q, host).items[i].value) in ItemKeysOf(r)
    ensures d.Found?
  {
    var u := Unified(q, host);
    var s := u.items[i].value;
    IndexOfMembers(st.all, ItemKeysOf, ExactKey(s), r);
    IndexOfMembers(st.all, ItemKeysOf, WildcardKey(s), r);
    assert ItemSlotHit(st.items, u.items[i], u, props, host);
    assert AnyItemHit(st.items, u, props, host);
  }

  /** Completeness of the fluid scan: for a backend whose minimum item-input
      count is 0, a recipe of a consistent backend that is acceptable for the
      unified query and has a presented fluid among its fluid inputs makes the
      default search find some recipe, even with no items presented. */
  lemma {:induction false} DoFindCompleteForFluids(st: IndexState, props: BackendProperties, host: Host, q: Query,
                                                  d: FindResult, r: Recipe, i: int)
    requires Consistent(st)
    requires DoFindSpec(st, props, host, q, d)
    requires props.minItemInputs == 0
    requires r in st.all && Acceptable(r, Unified(q, host), props, host)
    requires !BelowMinimums(q, props, host)
    requires 0 <= i < |q.fluids| && q.fluids[i].Some? && q.fluids[i].value.fluid in FluidKeysOf(r)
    ensures d.Found?
  {
    var u := Unified(q, host);
    IndexOfMembers(st.all, FluidKeysOf, u.fluids[i].value.fluid, r);
    assert FluidSlotHit(st.fluids, u.fluids[i], u, props, host);
    assert AnyFluidHit(st.fluids, u, props, host);
  }

  /** With an override hook, its result is returned unchanged; with the base
      class hooks, the search returns exactly what the default search found. */
  lemma FindHooks(st: IndexState, props: BackendProperties, hooks: Hooks, host: Host,
                  q: Query, inner: FindResult, res: FindResult)
    requires FindSpec(st, props, hooks, host, q, inner, res)
    ensures hooks.overwriteFind.Some? ==> res == hooks.overwriteFind.value(q)
    ensures DefaultHooks(hooks) ==> res == inner && DoFindSpec(st, props, host, q, res)
  {
  }
}
