/** The recipe backend of one recipe map: the set of all recipes, the item and
    fluid indexes, the downstream maps, registration and search. */
module RecipeMapBackend {
  import opened RecipeTypes
  import opened RecipeIndex
  import opened RecipeSearch
  import opened RecipeRegistration

  /** A downstream recipe map, held as an opaque handle. */
  type RecipeMapHandle = nat

  /** One downstream re-registration: the map and the builder handed to it. */
  datatype Dispatch = Dispatch(downstream: RecipeMapHandle, builder: Builder)

  class Backend {
    var itemIndex: map<ItemKey, set<Recipe>>
    var fluidIndex: map<string, set<Recipe>>
    var allRecipes: set<Recipe>
    var downstreams: seq<RecipeMapHandle>
    const checkForCollision: bool := true
    const properties: BackendProperties
    /** The search steps a subclass overrides. */
    const hooks: Hooks

    function State(): IndexState
      reads this
    {
      IndexState(allRecipes, itemIndex, fluidIndex)
    }

    /** Both indexes are the ones the set of all recipes determines. */
    ghost predicate Valid()
      reads this
    {
      Consistent(State())
    }

    constructor (properties: BackendProperties, hooks: Hooks)
      ensures Valid()
      ensures allRecipes == {} && itemIndex == map[] && fluidIndex == map[] && downstreams == []
      ensures this.properties == properties && this.hooks == hooks
    {
      this.properties := properties;
      this.hooks := hooks;
      itemIndex := map[];
      fluidIndex := map[];
      allRecipes := {};
      downstreams := [];
      new;
      IndexOfEmpty(ItemKeysOf);
      IndexOfEmpty(FluidKeysOf);
    }

    /** Adds a recipe without any check: it joins the set of all recipes and
        the bucket of each of its non-null fluid inputs and item inputs. */
    method DoAdd(recipe: Recipe) returns (added: Recipe)
      modifies this`allRecipes, this`fluidIndex, this`itemIndex
      ensures added == recipe
      ensures allRecipes == old(allRecipes) + {recipe}
      ensures fluidIndex == Indexed(old(fluidIndex), FluidKeysOf(recipe), recipe)
      ensures itemIndex == Indexed(old(itemIndex), ItemKeysOf(recipe), recipe)
      ensures old(Valid()) ==> Valid()
    {
      allRecipes := allRecipes + {recipe};
      AddToFluidMap(recipe);
      added := AddToItemMap(recipe);
      if old(Valid()) {
        IndexOfInsert(old(allRecipes), recipe, ItemKeysOf);
        IndexOfInsert(old(allRecipes), recipe, FluidKeysOf);
      }
    }

    /** The fluid loop of `doAdd`: the recipe joins the bucket of each of its
        non-null fluid inputs. */
    method AddToFluidMap(recipe: Recipe)
      modifies this`fluidIndex
      ensures fluidIndex == Indexed(old(fluidIndex), FluidKeysOf(recipe), recipe)
    {
      var i := 0;
      assert recipe.fluidInputs[..0] == [];
      IndexedNoKeys(fluidIndex, recipe);
      while i < |recipe.fluidInputs|
        invariant 0 <= i <= |recipe.fluidInputs|
        invariant fluidIndex == Indexed(old(fluidIndex), FluidSlotKeys(recipe.fluidInputs[..i]), recipe)
      {
        FluidSlotKeysStep(recipe.fluidInputs, i);
        var fluid := recipe.fluidInputs[i];
        if fluid.Some? {
          var name := fluid.value.fluid;
          IndexedAddKey(old(fluidIndex), FluidSlotKeys(recipe.fluidInputs[..i]), name, recipe);
          fluidIndex := fluidIndex[name := Bucket(fluidIndex, name) + {recipe}];
        }
        i := i + 1;
      }
      assert recipe.fluidInputs[..i] == recipe.fluidInputs;
    }

    /** Adds a recipe to the bucket of each of its non-null item inputs. */
    method AddToItemMap(recipe: Recipe) returns (added: Recipe)
      modifies this`itemIndex
      ensures added == recipe
      ensures itemIndex == Indexed(old(itemIndex), ItemKeysOf(recipe), recipe)
    {
      var i := 0;
      assert recipe.inputs[..0] == [];
      IndexedNoKeys(itemIndex, recipe);
      while i < |recipe.inputs|
        invariant 0 <= i <= |recipe.inputs|
        invariant itemIndex == Indexed(old(itemIndex), ItemSlotKeys(recipe.inputs[..i]), recipe)
      {
        ItemSlotKeysStep(recipe.inputs, i);
        var item := recipe.inputs[i];
        if item.Some? {
          var key := ExactKey(item.value);
          IndexedAddKey(old(itemIndex), ItemSlotKeys(recipe.inputs[..i]), key, recipe);
          itemIndex := itemIndex[key := Bucket(itemIndex, key) + {recipe}];
        }
        i := i + 1;
      }
      assert recipe.inputs[..i] == recipe.inputs;
      added := recipe;
    }

    /** Declares a map that receives every successful registration. */
    method AddDownstream(downstream: RecipeMapHandle)
      modifies this`downstreams
      ensures downstreams == old(downstreams) + [downstream]
    {
      downstreams := downstreams + [downstream];
    }

    /** Rebuilds the item index from the set of all recipes; the set and the
        fluid index are untouched. On a consistent backend this changes
        nothing, so every search answers as before. */
    method ReInit()
      modifies this`itemIndex
      ensures itemIndex == IndexOf(allRecipes, ItemKeysOf)
      ensures allRecipes == old(allRecipes) && fluidIndex == old(fluidIndex)
      ensures old(Valid()) ==> Valid() && itemIndex == old(itemIndex)
    {
      itemIndex := map[];
      IndexOfEmpty(ItemKeysOf);
      var rest := allRecipes;
      while rest != {}
        invariant rest <= allRecipes
        invariant itemIndex == IndexOf(allRecipes - rest, ItemKeysOf)
        decreases |rest|
      {
        var recipe :| recipe in rest;
        IndexOfInsert(allRecipes - rest, recipe, ItemKeysOf);
        var _ := AddToItemMap(recipe);
        assert (allRecipes - rest) + {recipe} == allRecipes - (rest - {recipe});
        rest := rest - {recipe};
      }
      assert allRecipes - rest == allRecipes;
    }

    /** Whether an item is an input of some recipe: its exact or its wildcard
        key has a bucket. */
    function ContainsItemInput(item: ItemStack): (r: bool)
      reads this
      ensures Valid() ==>
                (r <==> exists recipe :: recipe in allRecipes
                           && (ExactKey(item) in ItemKeysOf(recipe) || WildcardKey(item) in ItemKeysOf(recipe)))
    {
      ExactKey(item) in itemIndex || WildcardKey(item) in itemIndex
    }

    /** Whether a fluid is an input of some recipe: its name has a bucket. */
    function ContainsFluidInput(fluid: string): (r: bool)
      reads this
      ensures Valid() ==> (r <==> exists recipe :: recipe in allRecipes && fluid in FluidKeysOf(recipe))
    {
      fluid in fluidIndex
    }

    /** The search entry point: the override hook when the backend declares
        one; otherwise the default search, whose hit goes through the modify
        hook and whose miss goes to the fallback hook. */
    method FindRecipeWithResult(q: Query, host: Host) returns (res: FindResult, ghost inner: FindResult)
      ensures FindSpec(State(), properties, hooks, host, q, inner, res)
    {
      if hooks.overwriteFind.Some? {
        inner := NotFound;
        return hooks.overwriteFind.value(q), inner;
      }
      var d := DoFind(q, host);
      inner := d;
      if d.Found? {
        res := hooks.modifyFound(d, q);
      } else {
        res := hooks.findFallback(q);
      }
    }

    /** The default search. */
    method DoFind(q: Query, host: Host) returns (d: FindResult)
      ensures DoFindSpec(State(), properties, host, q, d)
    {
      if allRecipes == {} {
        return NotFound;
      }
      if host.postloadFinished {
        if properties.minFluidInputs > 0 {
          var count := CountPresent(q.fluids);
          if count < properties.minFluidInputs {
            return NotFound;
          }
        }
        if properties.minItemInputs > 0 {
          var count := CountPresent(q.items);
          if count < properties.minItemInputs {
            return NotFound;
          }
        }
      }
      var u := q;
      if q.notUnificated {
        u := q.(items := host.unify(q.items));
      }
      assert u == Unified(q, host);
      if u.cachedRecipe.Some? {
        var cached := u.cachedRecipe.value;
        if !cached.fake && cached.canBeBuffered
           && host.inputEqual(cached, u.items, u.fluids, u.dontCheckStackSizes) {
          if !properties.specialSlotSensitive || host.stacksEqualOrNull(cached.specialItem, u.specialSlot) {
            if cached.enabled && u.validator(cached) {
              return Found(cached);
            }
          }
        }
      }
      assert !CacheHit(u, properties, host);
      if itemIndex != map[] {
        var found := ScanItemIndex(u, host);
        if found.Some? {
          return Found(found.value);
        }
      } else {
        assert forall k :: Bucket(itemIndex, k) == {};
      }
      assert !AnyItemHit(itemIndex, u, properties, host);
      if properties.minItemInputs == 0 {
        var found := ScanFluidIndex(u, host);
        if found.Some? {
          return Found(found.value);
        }
      }
      return NotFound;
    }

    /** The item scan: for each presented item in order, its exact bucket,
        then its wildcard bucket. */
    method ScanItemIndex(u: Query, host: Host) returns (found: Option<Recipe>)
      ensures found.Some? <==> AnyItemHit(itemIndex, u, properties, host)
      ensures found.Some? ==> exists i :: FirstItemHitAt(itemIndex, u, i, properties, host)
                                          && ItemPick(itemIndex, u.items[i].value, found.value, u, properties, host)
    {
      var i := 0;
      while i < |u.items|
        invariant 0 <= i <= |u.items|
        invariant forall j :: 0 <= j < i ==> !ItemSlotHit(itemIndex, u.items[j], u, properties, host)
      {
        var item := u.items[i];
        if item.Some? {
          var exact := ExactKey(item.value);
          if exact in itemIndex {
            var candidate := LoopRecipes(itemIndex[exact], u, host);
            if candidate.Some? {
              assert FirstItemHitAt(itemIndex, u, i, properties, host);
              return candidate;
            }
          }
          assert !BucketHit(itemIndex, exact, u, properties, host);
          var wildcard := WildcardKey(item.value);
          if wildcard in itemIndex {
            var candidate := LoopRecipes(itemIndex[wildcard], u, host);
            if candidate.Some? {
              assert FirstItemHitAt(itemIndex, u, i, properties, host);
              return candidate;
            }
          }
          assert !BucketHit(itemIndex, wildcard, u, properties, host);
        }
        i := i + 1;
      }
      return None;
    }

    /** The fluid scan: for each presented fluid in order, its bucket. */
    method ScanFluidIndex(u: Query, host: Host) returns (found: Option<Recipe>)
      ensures found.Some? <==> AnyFluidHit(fluidIndex, u, properties, host)
      ensures found.Some? ==> exists i :: FirstFluidHitAt(fluidIndex, u, i, properties, host)
                                          && found.value in Bucket(fluidIndex, u.fluids[i].value.fluid)
                                          && Acceptable(found.value, u, properties, host)
    {
      var i := 0;
      while i < |u.fluids|
        invariant 0 <= i <= |u.fluids|
        invariant forall j :: 0 <= j < i ==> !FluidSlotHit(fluidIndex, u.fluids[j], u, properties, host)
      {
        var fluid := u.fluids[i];
        if fluid.Some? {
          var name := fluid.value.fluid;
          if name in fluidIndex {
            var candidate := LoopRecipes(fluidIndex[name], u, host);
            if candidate.Some? {
              assert FirstFluidHitAt(fluidIndex, u, i, properties, host);
              return candidate;
            }
          }
          assert !BucketHit(fluidIndex, name, u, properties, host);
        }
        i := i + 1;
      }
      return None;
    }

    /** Some acceptable recipe of a bucket, or none when the bucket has none. */
    method LoopRecipes(recipes: set<Recipe>, u: Query, host: Host) returns (found: Option<Recipe>)
      ensures found.Some? ==> found.value in recipes && Acceptable(found.value, u, properties, host)
      ensures found.None? ==> forall r :: r in recipes ==> !Acceptable(r, u, properties, host)
    {
      var rest := recipes;
      while rest != {}
        invariant rest <= recipes
        invariant forall r :: r in recipes - rest ==> !Acceptable(r, u, properties, host)
        decreases |rest|
      {
        var recipe :| recipe in rest;
        if !recipe.fake && host.inputEqual(recipe, u.items, u.fluids, u.dontCheckStackSizes) {
          if !properties.specialSlotSensitive || host.stacksEqualOrNull(recipe.specialItem, u.specialSlot) {
            if recipe.enabled && u.validator(recipe) {
              return Some(recipe);
            }
          }
        }
        rest := rest - {recipe};
      }
      return None;
    }

    /** Registration through a builder. Each emitted candidate is screened
        (configured duration, abandonment, special value, special handler);
        each admitted one is checked for a collision against the recipes
        present at that moment and either reported or added. If anything was
        accepted, the builder, with its invalid mark cleared, goes to every
        downstream map in order. `trace` records each collision check. */
    method DoAddBuilder(builder: Builder, host: Host)
      returns (ret: seq<Recipe>, collided: seq<Recipe>, dispatched: seq<Dispatch>, ghost trace: seq<Probe>)
      requires Valid()
      modifies this`allRecipes, this`fluidIndex, this`itemIndex
      ensures Valid()
      ensures CandidatesOf(trace) == ScreenAll(properties.recipeEmitter(builder), builder, properties, host).0
      ensures TraceSound(trace, old(allRecipes), properties, hooks, host)
      ensures allRecipes == old(allRecipes) + Elems(AcceptedOf(trace))
      ensures ret == (if ScreenAll(properties.recipeEmitter(builder), builder, properties, host).1 then []
                      else AcceptedOf(trace))
      ensures collided == CollidedOf(trace)
      ensures dispatched == (if ret == [] then [] else Fanout(downstreams, builder.(invalid := false)))
    {
      var recipes := properties.recipeEmitter(builder);
      ghost var start := allRecipes;
      ghost var whole := ScreenAll(recipes, builder, properties, host);
      ret, collided, dispatched, trace := [], [], [], [];
      var i := 0;
      assert recipes[0..] == recipes;
      assert CandidatesOf(trace) == [];
      assert whole.0 == CandidatesOf(trace) + whole.0;
      while i < |recipes|
        invariant 0 <= i <= |recipes|
        invariant Valid()
        invariant whole == (CandidatesOf(trace) + ScreenAll(recipes[i..], builder, properties, host).0,
                            ScreenAll(recipes[i..], builder, properties, host).1)
        invariant TraceSound(trace, start, properties, hooks, host)
        invariant allRecipes == start + Elems(AcceptedOf(trace))
        invariant ret == AcceptedOf(trace) && collided == CollidedOf(trace)
      {
        ghost var checked := CandidatesOf(trace);
        var abandon;
        abandon, ret, collided, trace := RegisterCandidate(recipes[i], builder, host, start, trace, ret, collided);
        ScreenAllAdvance(recipes, i, builder, properties, host, checked, CandidatesOf(trace));
        if abandon {
          return [], collided, [], trace;
        }
        i := i + 1;
      }
      assert recipes[i..] == [];
      if ret != [] {
        dispatched := FanoutLoop(builder.(invalid := false));
      }
    }

    /** One pass of the registration loop: the candidate is screened, and an
        admitted one goes through the collision check, which files it under
        the accepted or the collided recipes and extends the trace by its
        probe. `abandon` reports a candidate that abandons the request. */
    method RegisterCandidate(candidate: Recipe, builder: Builder, host: Host, ghost start: set<Recipe>,
                             ghost trace: seq<Probe>, ret: seq<Recipe>, collided: seq<Recipe>)
      returns (abandon: bool, ret': seq<Recipe>, collided': seq<Recipe>, ghost trace': seq<Probe>)
      requires Valid()
      requires TraceSound(trace, start, properties, hooks, host)
      requires allRecipes == start + Elems(AcceptedOf(trace))
      requires ret == AcceptedOf(trace) && collided == CollidedOf(trace)
      modifies this`allRecipes, this`fluidIndex, this`itemIndex
      ensures Valid()
      ensures abandon == Screen(candidate, builder, properties, host).AbandonRequest?
      ensures abandon ==> trace' == trace && collided' == collided
      ensures CandidatesOf(trace') == CandidatesOf(trace)
              + (if Screen(candidate, builder, properties, host).Admitted?
                 then [Screen(candidate, builder, properties, host).recipe] else [])
      ensures TraceSound(trace', start, properties, hooks, host)
      ensures allRecipes == start + Elems(AcceptedOf(trace'))
      ensures ret' == AcceptedOf(trace') && collided' == CollidedOf(trace')
    {
      abandon, ret', collided', trace' := false, ret, collided, trace;
      var screened := ScreenCandidate(candidate, builder, host);
      if screened.AbandonRequest? {
        abandon := true;
        return;
      }
      if screened.Admitted? {
        ret', collided', trace' := ProbeCandidate(screened.recipe, host, start, trace, ret, collided);
      }
    }

    /** The collision check of an admitted candidate, filed under the
        accepted or the collided recipes, with its probe added to the trace. */
    method ProbeCandidate(recipe: Recipe, host: Host, ghost start: set<Recipe>,
                          ghost trace: seq<Probe>, ret: seq<Recipe>, collided: seq<Recipe>)
      returns (ret': seq<Recipe>, collided': seq<Recipe>, ghost trace': seq<Probe>)
      requires Valid()
      requires TraceSound(trace, start, properties, hooks, host)
      requires allRecipes == start + Elems(AcceptedOf(trace))
      requires ret == AcceptedOf(trace) && collided == CollidedOf(trace)
      modifies this`allRecipes, this`fluidIndex, this`itemIndex
      ensures Valid()
      ensures CandidatesOf(trace') == CandidatesOf(trace) + [recipe]
      ensures TraceSound(trace', start, properties, hooks, host)
      ensures allRecipes == start + Elems(AcceptedOf(trace'))
      ensures ret' == AcceptedOf(trace') && collided' == CollidedOf(trace')
    {
      var accepted, probe := CheckAndAdd(recipe, host);
      TraceStep(trace, start, probe, properties, hooks, host);
      ret', collided' := ret, collided;
      if accepted {
        ret' := ret + [recipe];
      } else {
        collided' := collided + [recipe];
      }
      trace' := trace + [probe];
    }

    /** The collision check of one admitted candidate against the recipes
        present, and its addition when the check finds nothing. */
    method CheckAndAdd(recipe: Recipe, host: Host) returns (accepted: bool, ghost probe: Probe)
      requires Valid()
      modifies this`allRecipes, this`fluidIndex, this`itemIndex
      ensures Valid()
      ensures probe.candidate == recipe && probe.before == old(allRecipes)
      ensures FindSpec(StateOf(probe.before), properties, hooks, host, CollisionQuery(recipe), probe.inner, probe.result)
      ensures accepted == !probe.result.Found?
      ensures allRecipes == old(allRecipes) + (if accepted then {recipe} else {})
    {
      var res: FindResult;
      ghost var inner: FindResult;
      res, inner := FindRecipeWithResult(CollisionQuery(recipe), host);
      assert State() == StateOf(allRecipes);
      probe := Probe(recipe, allRecipes, inner, res);
      if checkForCollision && res.Found? {
        accepted := false;
      } else {
        var _ := DoAdd(recipe);
        accepted := true;
      }
    }

    /** The builder handed to every downstream map, in order. */
    method FanoutLoop(cleared: Builder) returns (dispatched: seq<Dispatch>)
      ensures dispatched == Fanout(downstreams, cleared)
    {
      dispatched := [];
      var k := 0;
      while k < |downstreams|
        invariant 0 <= k <= |downstreams|
        invariant dispatched == Fanout(downstreams[..k], cleared)
      {
        assert downstreams[..k + 1][..k] == downstreams[..k];
        dispatched := dispatched + [Dispatch(downstreams[k], cleared)];
        k := k + 1;
      }
      assert downstreams[..|downstreams|] == downstreams;
    }

    /** The pre-collision steps of registration for one candidate, as the
        registration loop performs them. */
    method ScreenCandidate(candidate: Recipe, builder: Builder, host: Host) returns (screened: Screening)
      ensures screened == Screen(candidate, builder, properties, host)
    {
      var recipe := candidate;
      if properties.recipeConfigCategory.Some? {
        var configKey := properties.recipeConfigKey(recipe);
        if configKey.Some? {
          recipe := recipe.(duration := host.configDuration(properties.recipeConfigCategory.value, configKey.value, recipe.duration));
          if recipe.duration <= 0 {
            return DroppedByConfig;
          }
        }
      }
      if |recipe.fluidInputs| < properties.minFluidInputs && |recipe.inputs| < properties.minItemInputs {
        return AbandonRequest;
      }
      if recipe.specialValue == 0 {
        var specialValue := DeriveSpecialValue(builder);
        recipe := recipe.(specialValue := specialValue);
      }
      var handled := if properties.specialHandler.Some? then properties.specialHandler.value(recipe) else Some(recipe);
      if handled.None? {
        return Vetoed;
      }
      return Admitted(handled.value);
    }
  }

  /** One dispatch of the same builder to each downstream map, in order. */
  function Fanout(downstreams: seq<RecipeMapHandle>, b: Builder): (ds: seq<Dispatch>)
    ensures |ds| == |downstreams|
    ensures forall k :: 0 <= k < |ds| ==> ds[k] == Dispatch(downstreams[k], b)
  {
    if downstreams == [] then [] else Fanout(downstreams[..|downstreams| - 1], b) + [Dispatch(downstreams[|downstreams| - 1], b)]
  }

  /** The index of an empty set of recipes is empty. */
  lemma IndexOfEmpty<K>(keysOf: Recipe -> set<K>)
    ensures IndexOf({}, keysOf) == map[]
  {
    assert AllKeys({}, keysOf) == {};
  }
}
