/** The data model shared by the recipe index, the search, the registration path
    and the helpers: stacks, index keys, recipes, builders, backend properties
    and the host functions the engine calls but does not define. */
module RecipeTypes {

  /** A nullable reference: `None` is Java's `null`. */
  datatype Option<T> = None | Some(value: T)

  /** An item stack: item id, damage (metadata) and stack size. */
  datatype ItemStack = ItemStack(item: nat, meta: int, amount: int)

  /** A fluid stack: the registered fluid name and an amount. */
  datatype FluidStack = FluidStack(fluid: string, amount: int)

  /** The item index key (item id and damage, stack size ignored). */
  datatype ItemKey = ItemKey(item: nat, meta: int)

  /** The damage value that stands for "any damage" in a wildcard key. */
  const WILDCARD_META: int := 32767

  /** The exact key of a stack, as `new GT_ItemStack(item)` builds it. */
  function ExactKey(s: ItemStack): ItemKey
  {
    ItemKey(s.item, s.meta)
  }

  /** The any-damage key of a stack, as `new GT_ItemStack(item, true)` builds it. */
  function WildcardKey(s: ItemStack): ItemKey
  {
    ItemKey(s.item, WILDCARD_META)
  }

  /** A recipe: sparse input and output slots (a `None` slot is a null array
      element), the special item, timings, the special value, its flags and the
      compression-tier metadata entry. */
  datatype Recipe = Recipe(
    inputs: seq<Option<ItemStack>>,
    outputs: seq<Option<ItemStack>>,
    fluidInputs: seq<Option<FluidStack>>,
    fluidOutputs: seq<Option<FluidStack>>,
    specialItem: Option<ItemStack>,
    duration: int,
    euPerTick: int,
    specialValue: int,
    enabled: bool,
    fake: bool,
    canBeBuffered: bool,
    compressionTier: Option<int>)

  /** The metadata of a recipe builder that registration consults, plus its
      invalid mark. `specialValueAliases` lists the builder's value for each
      identifier of the special-value alias list, in that list's order. */
  datatype Builder = Builder(
    lowGravity: bool,
    cleanroom: bool,
    specialValueAliases: seq<Option<int>>,
    invalid: bool)

  /** The properties of one backend. A negative minimum behaves like 0 in
      every comparison the engine makes, so the fields are plain `int`s. */
  datatype BackendProperties = BackendProperties(
    minItemInputs: int,
    minFluidInputs: int,
    specialSlotSensitive: bool,
    recipeConfigCategory: Option<string>,
    recipeConfigKey: Recipe -> Option<string>,
    specialHandler: Option<Recipe -> Option<Recipe>>,
    recipeEmitter: Builder -> seq<Recipe>)

  /** Host code the engine calls without seeing it:
      - `inputEqual(r, items, fluids, dontCheckStackSizes)` is
        `r.isRecipeInputEqual(false, dontCheckStackSizes, fluids, items)`;
      - `stacksEqualOrNull` is `areStacksEqualOrNull`;
      - `unify` is the ore-dictionary unification of an item array;
      - `configDuration(category, key, default)` is the recipe config file lookup;
      - `postloadFinished` is the global postload flag. */
  datatype Host = Host(
    inputEqual: (Recipe, seq<Option<ItemStack>>, seq<Option<FluidStack>>, bool) -> bool,
    stacksEqualOrNull: (Option<ItemStack>, Option<ItemStack>) -> bool,
    unify: seq<Option<ItemStack>> -> seq<Option<ItemStack>>,
    configDuration: (string, string, int) -> int,
    postloadFinished: bool)

  /** The number of non-null slots of an array. */
  function Present<T>(slots: seq<Option<T>>): nat
  {
    if slots == [] then 0
    else Present(slots[..|slots| - 1]) + (if slots[|slots| - 1].Some? then 1 else 0)
  }

  /** A count of non-null slots never exceeds the array length, and it is zero
      exactly when every slot is null. */
  lemma {:induction false} PresentBounds<T>(slots: seq<Option<T>>)
    ensures Present(slots) <= |slots|
    ensures Present(slots) == 0 <==> forall i :: 0 <= i < |slots| ==> slots[i].None?
  {
    if slots != [] {
      var init := slots[..|slots| - 1];
      PresentBounds(init);
      assert forall i :: 0 <= i < |init| ==> init[i] == slots[i];
    }
  }

  /** The counting loop of the minimum-input guard. */
  method CountPresent<T>(slots: seq<Option<T>>) returns (count: nat)
    ensures count == Present(slots)
  {
    count := 0;
    var i := 0;
    while i < |slots|
      invariant 0 <= i <= |slots|
      invariant count == Present(slots[..i])
    {
      assert slots[..i + 1][..i] == slots[..i];
      if slots[i].Some? {
        count := count + 1;
      }
      i := i + 1;
    }
    assert slots[..|slots|] == slots;
  }
}
