/** The recipe index: buckets of recipes keyed by input item or input fluid,
    the single-recipe insertion that `doAdd`/`addToItemMap` perform, and the
    index that is re-derivable from the set of all recipes. */
module RecipeIndex {
  import opened RecipeTypes

  /** `index.get(k)`, with a missing bucket read as the empty one. */
  function Bucket<K>(index: map<K, set<Recipe>>, k: K): set<Recipe>
  {
    if k in index then index[k] else {}
  }

  /** The item keys a recipe is indexed under: the exact key of every non-null
      item input. */
  function ItemSlotKeys(slots: seq<Option<ItemStack>>): set<ItemKey>
  {
    set i | 0 <= i < |slots| && slots[i].Some? :: ExactKey(slots[i].value)
  }

  /** The fluid keys a recipe is indexed under: the name of every non-null
      fluid input. */
  function FluidSlotKeys(slots: seq<Option<FluidStack>>): set<string>
  {
    set i | 0 <= i < |slots| && slots[i].Some? :: slots[i].value.fluid
  }

  function ItemKeysOf(r: Recipe): set<ItemKey>
  {
    ItemSlotKeys(r.inputs)
  }

  function FluidKeysOf(r: Recipe): set<string>
  {
    FluidSlotKeys(r.fluidInputs)
  }

  /** The index after putting `r` into the bucket of every key in `keys`,
      creating missing buckets. */
  function Indexed<K>(index: map<K, set<Recipe>>, keys: set<K>, r: Recipe): map<K, set<Recipe>>
  {
    map k | k in index.Keys + keys :: Bucket(index, k) + (if k in keys then {r} else {})
  }

  /** The index a set of recipes determines: a bucket per key some recipe is
      indexed under, holding exactly the recipes indexed under it. */
  function IndexOf<K>(all: set<Recipe>, keysOf: Recipe -> set<K>): map<K, set<Recipe>>
  {
    map k | k in AllKeys(all, keysOf) :: set r | r in all && k in keysOf(r)
  }

  /** Every key some recipe of `all` is indexed under. */
  function AllKeys<K>(all: set<Recipe>, keysOf: Recipe -> set<K>): set<K>
  {
    set r, k | r in all && k in keysOf(r) :: k
  }

  /** Inserting one recipe under one key (`computeIfAbsent(k, ...).add(r)`)
      extends the set of keys the recipe has been inserted under. */
  lemma {:induction false} IndexedAddKey<K>(m: map<K, set<Recipe>>, keys: set<K>, k: K, r: Recipe)
    ensures Indexed(m, keys, r)[k := Bucket(Indexed(m, keys, r), k) + {r}] == Indexed(m, keys + {k}, r)
  {
    var lhs := Indexed(m, keys, r)[k := Bucket(Indexed(m, keys, r), k) + {r}];
    var rhs := Indexed(m, keys + {k}, r);
    assert lhs.Keys == rhs.Keys;
    forall k' | k' in lhs.Keys
      ensures lhs[k'] == rhs[k']
    {
    }
  }

  /** Indexing a recipe under no key changes nothing. */
  lemma IndexedNoKeys<K>(m: map<K, set<Recipe>>, r: Recipe)
    ensures Indexed(m, {}, r) == m
  {
    assert Indexed(m, {}, r).Keys == m.Keys;
    assert forall k :: k in m ==> Indexed(m, {}, r)[k] == m[k];
  }

  /** After `Indexed`, `r` is in the bucket of every key it was indexed under,
      every other bucket is unchanged and no key outside `keys` is created. */
  lemma IndexedSpec<K>(m: map<K, set<Recipe>>, keys: set<K>, r: Recipe, k: K)
    ensures k in keys ==> k in Indexed(m, keys, r) && r in Indexed(m, keys, r)[k]
    ensures k !in keys ==> Bucket(Indexed(m, keys, r), k) == Bucket(m, k)
    ensures k in Indexed(m, keys, r) <==> k in m || k in keys
  {
  }

  /** Adding a recipe to the set of all recipes and indexing it under its keys
      keeps the index equal to the one the set determines. */
  lemma {:induction false} IndexOfInsert<K>(all: set<Recipe>, r: Recipe, keysOf: Recipe -> set<K>)
    ensures IndexOf(all + {r}, keysOf) == Indexed(IndexOf(all, keysOf), keysOf(r), r)
  {
    var lhs := IndexOf(all + {r}, keysOf);
    var old_ := IndexOf(all, keysOf);
    var rhs := Indexed(old_, keysOf(r), r);
    forall k | k in rhs.Keys
      ensures k in lhs.Keys
    {
      if k in old_.Keys {
        var r' :| r' in all && k in keysOf(r');
        assert r' in all + {r};
      } else {
        assert k in keysOf(r);
      }
    }
    forall k | k in lhs.Keys
      ensures k in rhs.Keys && lhs[k] == rhs[k]
    {
      var r' :| r' in all + {r} && k in keysOf(r');
      if r' in all {
        assert k in old_.Keys;
      }
      assert lhs[k] == (set x | x in all && k in keysOf(x)) + (if k in keysOf(r) then {r} else {});
    }
    assert lhs.Keys == rhs.Keys;
  }

  /** The item keys of a slot prefix grow by the key of the next slot, if any. */
  lemma ItemSlotKeysStep(slots: seq<Option<ItemStack>>, i: nat)
    requires i < |slots|
    ensures ItemSlotKeys(slots[..i + 1])
         == ItemSlotKeys(slots[..i]) + (if slots[i].Some? then {ExactKey(slots[i].value)} else {})
  {
    var p, q := slots[..i], slots[..i + 1];
    assert forall j :: 0 <= j < i ==> q[j] == p[j];
    if slots[i].Some? {
      assert ExactKey(q[i].value) in ItemSlotKeys(q);
    }
  }

  /** The fluid keys of a slot prefix grow by the name of the next slot, if any. */
  lemma FluidSlotKeysStep(slots: seq<Option<FluidStack>>, i: nat)
    requires i < |slots|
    ensures FluidSlotKeys(slots[..i + 1])
         == FluidSlotKeys(slots[..i]) + (if slots[i].Some? then {slots[i].value.fluid} else {})
  {
    var p, q := slots[..i], slots[..i + 1];
    assert forall j :: 0 <= j < i ==> q[j] == p[j];
    if slots[i].Some? {
      assert q[i].value.fluid in FluidSlotKeys(q);
    }
  }

  /** In the index a set determines, a recipe is in the bucket of a key exactly
      when it belongs to the set and is indexed under that key, and every
      bucket holds only recipes of the set. */
  lemma IndexOfMembers<K>(all: set<Recipe>, keysOf: Recipe -> set<K>, k: K, r: Recipe)
    ensures r in Bucket(IndexOf(all, keysOf), k) <==> r in all && k in keysOf(r)
  {
    if r in all && k in keysOf(r) {
      assert k in IndexOf(all, keysOf);
    }
  }

  /** Null slots are never indexed: an item key is in the index a set of
      recipes determines exactly when some recipe of the set has a non-null
      item input of that item and damage. */
  lemma {:induction false} ItemIndexKeys(all: set<Recipe>, k: ItemKey)
    ensures k in IndexOf(all, ItemKeysOf)
        <==> exists r, i :: r in all && 0 <= i < |r.inputs| && r.inputs[i].Some?
                            && r.inputs[i].value.item == k.item && r.inputs[i].value.meta == k.meta
  {
    if k in IndexOf(all, ItemKeysOf) {
      var r :| r in all && k in ItemKeysOf(r);
      var i :| 0 <= i < |r.inputs| && r.inputs[i].Some? && ExactKey(r.inputs[i].value) == k;
    }
    if exists r, i :: r in all && 0 <= i < |r.inputs| && r.inputs[i].Some?
                      && r.inputs[i].value.item == k.item && r.inputs[i].value.meta == k.meta {
      var r, i :| r in all && 0 <= i < |r.inputs| && r.inputs[i].Some?
                  && r.inputs[i].value.item == k.item && r.inputs[i].value.meta == k.meta;
      assert ExactKey(r.inputs[i].value) == k;
      assert k in ItemKeysOf(r);
      assert k in AllKeys(all, ItemKeysOf);
    }
  }
}
