/** Recipe templates: a template recipe object, its shallow copies
    ("derivatives"), and the fix-up that gives every derivative arrays of its
    own before the list is handed out. Here a recipe is an object whose four
    slot arrays are references, since aliasing between copies is the point. */
module RecipeTemplate {
  import opened RecipeTypes

  /** A recipe object, reduced to its four array fields. */
  class RecipeObject {
    var inputs: array<Option<ItemStack>>
    var outputs: array<Option<ItemStack>>
    var fluidInputs: array<Option<FluidStack>>
    var fluidOutputs: array<Option<FluidStack>>

    /** `copyShallow`: a new object sharing the four arrays of `r`. */
    constructor CopyShallow(r: RecipeObject)
      ensures inputs == r.inputs && outputs == r.outputs
      ensures fluidInputs == r.fluidInputs && fluidOutputs == r.fluidOutputs
    {
      inputs, outputs := r.inputs, r.outputs;
      fluidInputs, fluidOutputs := r.fluidInputs, r.fluidOutputs;
    }
  }

  /** The objects of a list. */
  function Objects(ds: seq<RecipeObject>): set<RecipeObject>
  {
    set d | d in ds
  }

  /** The item arrays of a list of recipes, two per recipe (inputs, then
      outputs), in list order. */
  function ItemArrays(ds: seq<RecipeObject>): (s: seq<array<Option<ItemStack>>>)
    reads Objects(ds)
    ensures |s| == 2 * |ds|
    ensures forall j :: 0 <= j < |ds| ==> s[2 * j] == ds[j].inputs && s[2 * j + 1] == ds[j].outputs
  {
    if ds == [] then []
    else ItemArrays(ds[..|ds| - 1]) + [ds[|ds| - 1].inputs, ds[|ds| - 1].outputs]
  }

  /** The fluid arrays of a list of recipes, two per recipe (inputs, then
      outputs), in list order. */
  function FluidArrays(ds: seq<RecipeObject>): (s: seq<array<Option<FluidStack>>>)
    reads Objects(ds)
    ensures |s| == 2 * |ds|
    ensures forall j :: 0 <= j < |ds| ==> s[2 * j] == ds[j].fluidInputs && s[2 * j + 1] == ds[j].fluidOutputs
  {
    if ds == [] then []
    else FluidArrays(ds[..|ds| - 1]) + [ds[|ds| - 1].fluidInputs, ds[|ds| - 1].fluidOutputs]
  }

  /** The item arrays are the ones the recipes' fields hold. */
  lemma {:induction false} ItemArraysOf(ds: seq<RecipeObject>, arrays: seq<array<Option<ItemStack>>>)
    requires |arrays| == 2 * |ds|
    requires forall j :: 0 <= j < |ds| ==> arrays[2 * j] == ds[j].inputs && arrays[2 * j + 1] == ds[j].outputs
    ensures ItemArrays(ds) == arrays
  {
    if ds != [] {
      var n := |ds| - 1;
      ItemArraysOf(ds[..n], arrays[..2 * n]);
      assert arrays == arrays[..2 * n] + [arrays[2 * n], arrays[2 * n + 1]];
    }
  }

  /** The fluid arrays are the ones the recipes' fields hold. */
  lemma {:induction false} FluidArraysOf(ds: seq<RecipeObject>, arrays: seq<array<Option<FluidStack>>>)
    requires |arrays| == 2 * |ds|
    requires forall j :: 0 <= j < |ds| ==> arrays[2 * j] == ds[j].fluidInputs && arrays[2 * j + 1] == ds[j].fluidOutputs
    ensures FluidArrays(ds) == arrays
  {
    if ds != [] {
      var n := |ds| - 1;
      FluidArraysOf(ds[..n], arrays[..2 * n]);
      assert arrays == arrays[..2 * n] + [arrays[2 * n], arrays[2 * n + 1]];
    }
  }

  /** What the arrays hold, slot by slot. */
  function Contents<T>(arrays: seq<array<T>>): (c: seq<seq<T>>)
    reads arrays
    ensures |c| == |arrays| && forall p :: 0 <= p < |arrays| ==> c[p] == arrays[p][..]
  {
    if arrays == [] then [] else Contents(arrays[..|arrays| - 1]) + [arrays[|arrays| - 1][..]]
  }

  /** Arrays that keep given contents have those contents. */
  lemma ContentsOf<T>(arrays: seq<array<T>>, contents: seq<seq<T>>)
    requires |arrays| == |contents| && forall p :: 0 <= p < |arrays| ==> arrays[p][..] == contents[p]
    ensures Contents(arrays) == contents
  {
  }

  /** Position `p` holds the first occurrence of its array. */
  predicate FirstHolder<T>(orig: seq<array<T>>, p: int)
    requires 0 <= p < |orig|
  {
    forall q :: 0 <= q < p ==> orig[q] != orig[p]
  }

  /** The first `k` positions are fixed up, the rest untouched: a first holder
      keeps its array, any later holder got an array that is none of the
      original ones, and no two fixed-up positions share an array. */
  predicate FixedUpTo<T>(orig: seq<array<T>>, cur: seq<array<T>>, k: int)
  {
    && |cur| == |orig| && 0 <= k <= |orig|
    && (forall p :: 0 <= p < k ==> (if FirstHolder(orig, p) then cur[p] == orig[p] else cur[p] !in orig))
    && (forall p, q :: 0 <= p < q < k ==> cur[p] != cur[q])
    && (forall p :: k <= p < |cur| ==> cur[p] == orig[p])
  }

  /** Every later holder among the first `k` positions holds one of the
      arrays in `made`. */
  predicate Renewed<T>(orig: seq<array<T>>, cur: seq<array<T>>, k: int, made: set<object>)
  {
    && |cur| == |orig| && 0 <= k <= |orig|
    && forall p :: 0 <= p < k && !FirstHolder(orig, p) ==> cur[p] in made
  }

  /** The arrays seen so far. */
  function Seen<T>(orig: seq<array<T>>): set<array<T>>
  {
    set a | a in orig
  }

  /** One step of the fix-up, on the arrays alone: an array seen before is
      replaced by one that is none of the arrays around, an unseen one is
      kept and becomes seen. */
  lemma {:induction false} FixStep<T>(orig: seq<array<T>>, cur: seq<array<T>>, k: int, b: array<T>, seen: set<array<T>>)
    requires FixedUpTo(orig, cur, k) && k < |orig| && seen == Seen(orig[..k])
    requires orig[k] in seen ==> b !in orig && b !in cur
    requires orig[k] !in seen ==> b == orig[k]
    ensures FixedUpTo(orig, cur[k := b], k + 1)
    ensures (if orig[k] in seen then seen else seen + {orig[k]}) == Seen(orig[..k + 1])
  {
    assert orig[..k + 1] == orig[..k] + [orig[k]];
    if orig[k] in seen {
      var q :| 0 <= q < k && orig[q] == orig[k];
      assert !FirstHolder(orig, k);
    } else {
      forall q | 0 <= q < k ensures orig[q] != orig[k] {
        assert orig[q] in Seen(orig[..k]);
      }
      assert FirstHolder(orig, k);
    }
  }

  /** One step of the fix-up: the array at position `k` is kept if it has not
      been seen, and replaced by a clone otherwise. */
  method FixSlot<T>(ghost orig: seq<array<T>>, ghost cur: seq<array<T>>, k: int, a: array<T>, seen: set<array<T>>,
                    ghost made: set<object>)
    returns (b: array<T>, seen': set<array<T>>, ghost made': set<object>)
    requires FixedUpTo(orig, cur, k) && k < |orig| && a == orig[k]
    requires seen == Seen(orig[..k]) && Renewed(orig, cur, k, made)
    ensures FixedUpTo(orig, cur[k := b], k + 1)
    ensures seen' == Seen(orig[..k + 1])
    ensures Renewed(orig, cur[k := b], k + 1, made')
    ensures made' == made || (made' == made + {b} && fresh(b))
    ensures b == a || fresh(b)
    ensures b[..] == a[..]
  {
    if a in seen {
      b := new T[a.Length](i requires 0 <= i < a.Length reads a => a[i]);
      seen', made' := seen, made + {b};
    } else {
      b := a;
      seen', made' := seen + {a}, made;
    }
    FixStep(orig, cur, k, b, seen);
  }

  /** No recipe object appears twice in the list. */
  predicate Distinct(ds: seq<RecipeObject>)
  {
    forall i, j :: 0 <= i < j < |ds| ==> ds[i] != ds[j]
  }

  /** The recipes' item fields hold `items`, two slots per recipe. */
  ghost predicate HoldsItems(ds: seq<RecipeObject>, items: seq<array<Option<ItemStack>>>)
    reads Objects(ds)`inputs, Objects(ds)`outputs
  {
    && |items| == 2 * |ds|
    && forall j :: 0 <= j < |ds| ==> ds[j].inputs == items[2 * j] && ds[j].outputs == items[2 * j + 1]
  }

  /** The recipes' fluid fields hold `fluids`, two slots per recipe. */
  ghost predicate HoldsFluids(ds: seq<RecipeObject>, fluids: seq<array<Option<FluidStack>>>)
    reads Objects(ds)`fluidInputs, Objects(ds)`fluidOutputs
  {
    && |fluids| == 2 * |ds|
    && forall j :: 0 <= j < |ds| ==> ds[j].fluidInputs == fluids[2 * j] && ds[j].fluidOutputs == fluids[2 * j + 1]
  }

  /** The arrays hold the given contents, slot by slot. */
  ghost predicate Keeps<T>(arrays: seq<array<T>>, contents: seq<seq<T>>)
    reads arrays
  {
    |arrays| == |contents| && forall p :: 0 <= p < |arrays| ==> arrays[p][..] == contents[p]
  }

  /** A template: the recipe it copies and the derivatives made so far. */
  class Template {
    const template: RecipeObject
    var derivatives: seq<RecipeObject>

    /** No recipe object appears twice among the derivatives. */
    ghost predicate Valid()
      reads this
    {
      Distinct(derivatives)
    }

    /** `asTemplate(r, includeTemplate)`: the template itself is the first
        derivative when asked for. */
    constructor (template: RecipeObject, includeTemplate: bool)
      ensures Valid()
      ensures this.template == template
      ensures derivatives == (if includeTemplate then [template] else [])
    {
      this.template := template;
      derivatives := if includeTemplate then [template] else [];
    }

    /** A new shallow copy of the template, appended to the derivatives. */
    method Derive() returns (derived: RecipeObject)
      requires Valid()
      modifies this`derivatives
      ensures Valid()
      ensures fresh(derived)
      ensures derived.inputs == template.inputs && derived.outputs == template.outputs
      ensures derived.fluidInputs == template.fluidInputs && derived.fluidOutputs == template.fluidOutputs
      ensures derivatives == old(derivatives) + [derived]
    {
      derived := new RecipeObject.CopyShallow(template);
      derivatives := derivatives + [derived];
    }

    /** The derivatives, after the fix-up: walking them in order, an array
        already held by an earlier slot is replaced by a clone. Afterwards no
        two slots share an array, every slot has the contents it had, the
        first holder of each array keeps it, and every later holder has a
        newly allocated copy. */
    method GetAll() returns (all: seq<RecipeObject>)
      requires Valid()
      modifies Objects(derivatives)
      ensures all == derivatives
      ensures FixedUpTo(old(ItemArrays(derivatives)), ItemArrays(derivatives), 2 * |derivatives|)
      ensures FixedUpTo(old(FluidArrays(derivatives)), FluidArrays(derivatives), 2 * |derivatives|)
      ensures Contents(ItemArrays(derivatives)) == old(Contents(ItemArrays(derivatives)))
      ensures Contents(FluidArrays(derivatives)) == old(Contents(FluidArrays(derivatives)))
      ensures forall p :: 0 <= p < 2 * |derivatives| && !FirstHolder(old(ItemArrays(derivatives)), p)
                ==> fresh(ItemArrays(derivatives)[p])
      ensures forall p :: 0 <= p < 2 * |derivatives| && !FirstHolder(old(FluidArrays(derivatives)), p)
                ==> fresh(FluidArrays(derivatives)[p])
    {
      var ds := derivatives;
      ghost var origItems, origFluids := ItemArrays(ds), FluidArrays(ds);
      ghost var itemContents, fluidContents := Contents(origItems), Contents(origFluids);
      ghost var items, fluids, made := FixAll(ds, origItems, origFluids, itemContents, fluidContents);
      ItemArraysOf(ds, items);
      FluidArraysOf(ds, fluids);
      ContentsOf(items, itemContents);
      ContentsOf(fluids, fluidContents);
      all := ds;
    }
  }

  /** The fix-up loop of `getAll` over the recipes `ds`, whose arrays were
      `origItems` and `origFluids`: afterwards the recipes hold `items` and
      `fluids`, fixed up in full, with the contents they had, and every later
      holder holds an array in `made`, all of which are new. */
  method FixAll(ds: seq<RecipeObject>,
                ghost origItems: seq<array<Option<ItemStack>>>, ghost origFluids: seq<array<Option<FluidStack>>>,
                ghost itemContents: seq<seq<Option<ItemStack>>>, ghost fluidContents: seq<seq<Option<FluidStack>>>)
    returns (ghost items: seq<array<Option<ItemStack>>>, ghost fluids: seq<array<Option<FluidStack>>>,
             ghost made: set<object>)
    requires Distinct(ds)
    requires HoldsItems(ds, origItems) && HoldsFluids(ds, origFluids)
    requires Keeps(origItems, itemContents) && Keeps(origFluids, fluidContents)
    modifies Objects(ds)
    ensures FixedUpTo(origItems, items, 2 * |ds|) && FixedUpTo(origFluids, fluids, 2 * |ds|)
    ensures HoldsItems(ds, items) && HoldsFluids(ds, fluids)
    ensures Keeps(items, itemContents) && Keeps(fluids, fluidContents)
    ensures Renewed(origItems, items, 2 * |ds|, made) && Renewed(origFluids, fluids, 2 * |ds|, made)
    ensures forall x :: x in made ==> fresh(x)
  {
    items, fluids, made := origItems, origFluids, {};
    var seenItems: set<array<Option<ItemStack>>> := {};
    var seenFluids: set<array<Option<FluidStack>>> := {};
    assert origItems[..0] == [] && origFluids[..0] == [];
    var i := 0;
    while i < |ds|
      invariant 0 <= i <= |ds|
      invariant FixedUpTo(origItems, items, 2 * i) && seenItems == Seen(origItems[..2 * i])
      invariant FixedUpTo(origFluids, fluids, 2 * i) && seenFluids == Seen(origFluids[..2 * i])
      invariant HoldsItems(ds, items) && HoldsFluids(ds, fluids)
      invariant Keeps(items, itemContents) && Keeps(fluids, fluidContents)
      invariant Renewed(origItems, items, 2 * i, made) && Renewed(origFluids, fluids, 2 * i, made)
      invariant forall x :: x in made ==> fresh(x)
    {
      items, seenItems, fluids, seenFluids, made :=
        FixRecipe(ds, i, ds[i], origItems, items, seenItems, origFluids, fluids, seenFluids, itemContents, fluidContents, made);
      i := i + 1;
    }
  }

  /** The fix-up of the `i`-th recipe: its item arrays, then its fluid
      arrays. */
  method FixRecipe(ds: seq<RecipeObject>, i: int, r: RecipeObject,
                   ghost origItems: seq<array<Option<ItemStack>>>, ghost items: seq<array<Option<ItemStack>>>,
                   seenItems: set<array<Option<ItemStack>>>,
                   ghost origFluids: seq<array<Option<FluidStack>>>, ghost fluids: seq<array<Option<FluidStack>>>,
                   seenFluids: set<array<Option<FluidStack>>>,
                   ghost itemContents: seq<seq<Option<ItemStack>>>, ghost fluidContents: seq<seq<Option<FluidStack>>>,
                   ghost made: set<object>)
    returns (ghost items': seq<array<Option<ItemStack>>>, seenItems': set<array<Option<ItemStack>>>,
             ghost fluids': seq<array<Option<FluidStack>>>, seenFluids': set<array<Option<FluidStack>>>,
             ghost made': set<object>)
    requires Distinct(ds) && 0 <= i < |ds| && r == ds[i]
    requires FixedUpTo(origItems, items, 2 * i) && seenItems == Seen(origItems[..2 * i])
    requires FixedUpTo(origFluids, fluids, 2 * i) && seenFluids == Seen(origFluids[..2 * i])
    requires HoldsItems(ds, items) && HoldsFluids(ds, fluids)
    requires Keeps(items, itemContents) && Keeps(fluids, fluidContents)
    requires Renewed(origItems, items, 2 * i, made) && Renewed(origFluids, fluids, 2 * i, made)
    modifies r
    ensures FixedUpTo(origItems, items', 2 * (i + 1)) && seenItems' == Seen(origItems[..2 * (i + 1)])
    ensures FixedUpTo(origFluids, fluids', 2 * (i + 1)) && seenFluids' == Seen(origFluids[..2 * (i + 1)])
    ensures HoldsItems(ds, items') && HoldsFluids(ds, fluids')
    ensures Keeps(items', itemContents) && Keeps(fluids', fluidContents)
    ensures Renewed(origItems, items', 2 * (i + 1), made') && Renewed(origFluids, fluids', 2 * (i + 1), made')
    ensures forall x :: x in made' && x !in made ==> fresh(x)
  {
    ghost var made1;
    items', seenItems', made1 := FixItems(ds, i, r, origItems, items, seenItems, fluids, itemContents, fluidContents, made);
    fluids', seenFluids', made' := FixFluids(ds, i, r, origFluids, fluids, seenFluids, items', itemContents, fluidContents, made1);
  }

  /** The fix-up of the item arrays of the `i`-th recipe, inputs then
      outputs: the first `2 * (i + 1)` item slots are fixed up afterwards, the
      slots keep their contents, and the recipes hold the new arrays. */
  method FixItems(ds: seq<RecipeObject>, i: int, r: RecipeObject, ghost orig: seq<array<Option<ItemStack>>>,
                  ghost items: seq<array<Option<ItemStack>>>, seen: set<array<Option<ItemStack>>>,
                  ghost fluids: seq<array<Option<FluidStack>>>,
                  ghost itemContents: seq<seq<Option<ItemStack>>>, ghost fluidContents: seq<seq<Option<FluidStack>>>,
                  ghost made: set<object>)
    returns (ghost items': seq<array<Option<ItemStack>>>, seen': set<array<Option<ItemStack>>>,
             ghost made': set<object>)
    requires Distinct(ds) && 0 <= i < |ds| && r == ds[i]
    requires FixedUpTo(orig, items, 2 * i) && seen == Seen(orig[..2 * i]) && HoldsItems(ds, items)
    requires Renewed(orig, items, 2 * i, made)
    requires HoldsFluids(ds, fluids)
    requires Keeps(items, itemContents) && Keeps(fluids, fluidContents)
    modifies r`inputs, r`outputs
    ensures HoldsFluids(ds, fluids)
    ensures Keeps(items', itemContents) && Keeps(fluids, fluidContents)
    ensures FixedUpTo(orig, items', 2 * (i + 1)) && seen' == Seen(orig[..2 * (i + 1)]) && HoldsItems(ds, items')
    ensures Renewed(orig, items', 2 * (i + 1), made') && made <= made'
    ensures forall x :: x in made' && x !in made ==> fresh(x)
  {
    var a1, a2;
    ghost var made1;
    a1, seen', made1 := FixSlot(orig, items, 2 * i, r.inputs, seen, made);
    ghost var items1 := items[2 * i := a1];
    a2, seen', made' := FixSlot(orig, items1, 2 * i + 1, r.outputs, seen', made1);
    items' := items1[2 * i + 1 := a2];
    SetItemArrays(ds, i, r, a1, a2, items, itemContents, fluids, fluidContents);
  }

  /** The fix-up of the fluid arrays of the `i`-th recipe, inputs then
      outputs: the first `2 * (i + 1)` fluid slots are fixed up afterwards, the
      slots keep their contents, and the recipes hold the new arrays. */
  method FixFluids(ds: seq<RecipeObject>, i: int, r: RecipeObject, ghost orig: seq<array<Option<FluidStack>>>,
                   ghost fluids: seq<array<Option<FluidStack>>>, seen: set<array<Option<FluidStack>>>,
                   ghost items: seq<array<Option<ItemStack>>>,
                   ghost itemContents: seq<seq<Option<ItemStack>>>, ghost fluidContents: seq<seq<Option<FluidStack>>>,
                   ghost made: set<object>)
    returns (ghost fluids': seq<array<Option<FluidStack>>>, seen': set<array<Option<FluidStack>>>,
             ghost made': set<object>)
    requires Distinct(ds) && 0 <= i < |ds| && r == ds[i]
    requires FixedUpTo(orig, fluids, 2 * i) && seen == Seen(orig[..2 * i]) && HoldsFluids(ds, fluids)
    requires Renewed(orig, fluids, 2 * i, made)
    requires HoldsItems(ds, items)
    requires Keeps(items, itemContents) && Keeps(fluids, fluidContents)
    modifies r`fluidInputs, r`fluidOutputs
    ensures HoldsItems(ds, items)
    ensures Keeps(items, itemContents) && Keeps(fluids', fluidContents)
    ensures FixedUpTo(orig, fluids', 2 * (i + 1)) && seen' == Seen(orig[..2 * (i + 1)]) && HoldsFluids(ds, fluids')
    ensures Renewed(orig, fluids', 2 * (i + 1), made') && made <= made'
    ensures forall x :: x in made' && x !in made ==> fresh(x)
  {
    var a1, a2;
    ghost var made1;
    a1, seen', made1 := FixSlot(orig, fluids, 2 * i, r.fluidInputs, seen, made);
    ghost var fluids1 := fluids[2 * i := a1];
    a2, seen', made' := FixSlot(orig, fluids1, 2 * i + 1, r.fluidOutputs, seen', made1);
    fluids' := fluids1[2 * i + 1 := a2];
    SetFluidArrays(ds, i, r, a1, a2, items, itemContents, fluids, fluidContents);
  }

  /** The `i`-th recipe's item fields are set to `inputs` and `outputs`: the
      recipes then hold the updated item slots, and nothing else changes. */
  method SetItemArrays(ds: seq<RecipeObject>, i: int, r: RecipeObject,
                       inputs: array<Option<ItemStack>>, outputs: array<Option<ItemStack>>,
                       ghost items: seq<array<Option<ItemStack>>>, ghost itemContents: seq<seq<Option<ItemStack>>>,
                       ghost fluids: seq<array<Option<FluidStack>>>, ghost fluidContents: seq<seq<Option<FluidStack>>>)
    requires Distinct(ds) && 0 <= i < |ds| && r == ds[i]
    requires HoldsItems(ds, items) && HoldsFluids(ds, fluids)
    requires Keeps(items[2 * i := inputs][2 * i + 1 := outputs], itemContents) && Keeps(fluids, fluidContents)
    modifies r`inputs, r`outputs
    ensures HoldsItems(ds, items[2 * i := inputs][2 * i + 1 := outputs]) && HoldsFluids(ds, fluids)
    ensures Keeps(items[2 * i := inputs][2 * i + 1 := outputs], itemContents) && Keeps(fluids, fluidContents)
  {
    r.inputs, r.outputs := inputs, outputs;
    forall j | 0 <= j < |ds| && j != i
      ensures ds[j].inputs == items[2 * i := inputs][2 * i + 1 := outputs][2 * j]
      ensures ds[j].outputs == items[2 * i := inputs][2 * i + 1 := outputs][2 * j + 1]
    {
      assert ds[j] != r;
    }
  }

  /** The `i`-th recipe's fluid fields are set to `fluidInputs` and
      `fluidOutputs`: the recipes then hold the updated fluid slots, and
      nothing else changes. */
  method SetFluidArrays(ds: seq<RecipeObject>, i: int, r: RecipeObject,
                        fluidInputs: array<Option<FluidStack>>, fluidOutputs: array<Option<FluidStack>>,
                        ghost items: seq<array<Option<ItemStack>>>, ghost itemContents: seq<seq<Option<ItemStack>>>,
                        ghost fluids: seq<array<Option<FluidStack>>>, ghost fluidContents: seq<seq<Option<FluidStack>>>)
    requires Distinct(ds) && 0 <= i < |ds| && r == ds[i]
    requires HoldsItems(ds, items) && HoldsFluids(ds, fluids)
    requires Keeps(items, itemContents) && Keeps(fluids[2 * i := fluidInputs][2 * i + 1 := fluidOutputs], fluidContents)
    modifies r`fluidInputs, r`fluidOutputs
    ensures HoldsItems(ds, items) && HoldsFluids(ds, fluids[2 * i := fluidInputs][2 * i + 1 := fluidOutputs])
    ensures Keeps(items, itemContents) && Keeps(fluids[2 * i := fluidInputs][2 * i + 1 := fluidOutputs], fluidContents)
  {
    r.fluidInputs, r.fluidOutputs := fluidInputs, fluidOutputs;
    forall j | 0 <= j < |ds| && j != i
      ensures ds[j].fluidInputs == fluids[2 * i := fluidInputs][2 * i + 1 := fluidOutputs][2 * j]
      ensures ds[j].fluidOutputs == fluids[2 * i := fluidInputs][2 * i + 1 := fluidOutputs][2 * j + 1]
    {
      assert ds[j] != r;
    }
  }
}
