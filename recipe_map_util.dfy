/** Helpers used to build recipe maps: array append, the all-fake special
    handler, the recipe key extractors used as config keys, the cell-to-fluid
    transfer of multiblock recipes and the optional-build wrapper. */
module RecipeMapUtil {
  import opened RecipeTypes
  import opened RecipeRegistration

  /** A copy of the array one element longer, ending in `val`. */
  function AppendArray<T>(arr: seq<T>, val: T): (r: seq<T>)
    ensures |r| == |arr| + 1
    ensures r[..|arr|] == arr && r[|arr|] == val
  {
    arr + [val]
  }

  /** The special handler that marks every recipe fake and keeps it. */
  function AllFakeRecipe(r: Recipe): (f: Recipe)
    ensures f.fake
    ensures f.(fake := r.fake) == r
  {
    r.(fake := true)
  }

  /** Used as a special handler, `AllFakeRecipe` never vetoes a candidate, and
      every candidate it admits is fake. */
  lemma AllFakeNeverVetoes(r: Recipe, b: Builder, props: BackendProperties, host: Host)
    requires props.specialHandler == Some((x: Recipe) => Some(AllFakeRecipe(x)))
    ensures Screen(r, b, props, host) != Vetoed
    ensures Screen(r, b, props, host).Admitted? ==> Screen(r, b, props, host).recipe.fake
  {
  }

  /** The result of a key extractor: a key, Java's `null`, or the exception
      the lambda throws. */
  datatype KeyResult = Key(name: string) | NullKey | Fault(kind: FaultKind)
  datatype FaultKind = NullPointer | IndexOutOfBounds

  /** Host naming functions: the config name of an item stack (null-safe) and
      the unlocalized name of a fluid stack. */
  datatype Names = Names(configName: Option<ItemStack> -> string, unlocalizedName: FluidStack -> string)

  /** The fluid name of element 0, read through a possibly-null reference. */
  function FluidNameAt0(fluids: seq<Option<FluidStack>>): KeyResult
  {
    if fluids == [] then Fault(IndexOutOfBounds)
    else if fluids[0].None? then Fault(NullPointer)
    else Key(fluids[0].value.fluid)
  }

  /** The unlocalized name of element 0, read through a possibly-null reference. */
  function UnlocalizedNameAt0(fluids: seq<Option<FluidStack>>, names: Names): KeyResult
  {
    if fluids == [] then Fault(IndexOutOfBounds)
    else if fluids[0].None? then Fault(NullPointer)
    else Key(names.unlocalizedName(fluids[0].value))
  }

  /** The config name of element 0. */
  function ConfigNameAt0(items: seq<Option<ItemStack>>, names: Names): KeyResult
  {
    if items == [] then Fault(IndexOutOfBounds) else Key(names.configName(items[0]))
  }

  function FirstFluidInput(r: Recipe): KeyResult
  {
    if r.fluidInputs == [] then NullKey else FluidNameAt0(r.fluidInputs)
  }

  /** `FIRST_FLUID_OUTPUT` as written: the emptiness test looks at the fluid
      inputs, the name is read from the fluid outputs. */
  function FirstFluidOutputAsWritten(r: Recipe): KeyResult
  {
    if r.fluidInputs == [] then NullKey else FluidNameAt0(r.fluidOutputs)
  }

  /** `FIRST_FLUID_OUTPUT` with the emptiness test on the fluid outputs. */
  function FirstFluidOutput(r: Recipe): KeyResult
  {
    if r.fluidOutputs == [] then NullKey else FluidNameAt0(r.fluidOutputs)
  }

  function FirstFluidStackInput(r: Recipe, names: Names): KeyResult
  {
    if r.fluidInputs == [] then NullKey else UnlocalizedNameAt0(r.fluidInputs, names)
  }

  function FirstFluidStackOutput(r: Recipe, names: Names): KeyResult
  {
    if r.fluidOutputs == [] then NullKey else UnlocalizedNameAt0(r.fluidOutputs, names)
  }

  function FirstItemInput(r: Recipe, names: Names): KeyResult
  {
    if r.inputs == [] then NullKey else ConfigNameAt0(r.inputs, names)
  }

  function FirstItemOutput(r: Recipe, names: Names): KeyResult
  {
    if r.outputs == [] then NullKey else ConfigNameAt0(r.outputs, names)
  }

  /** `FIRST_ITEM_OR_FLUID_INPUT` as written: element 0 of the item inputs is
      read exactly when that array is empty. */
  function FirstItemOrFluidInputAsWritten(r: Recipe, names: Names): KeyResult
  {
    if r.inputs == [] then ConfigNameAt0(r.inputs, names)
    else if r.fluidInputs == [] then NullKey
    else FluidNameAt0(r.fluidInputs)
  }

  /** `FIRST_ITEM_OR_FLUID_INPUT` with the item test the right way round:
      the first item input, else the first fluid input. */
  function FirstItemOrFluidInput(r: Recipe, names: Names): KeyResult
  {
    if r.inputs != [] then ConfigNameAt0(r.inputs, names)
    else if r.fluidInputs == [] then NullKey
    else FluidNameAt0(r.fluidInputs)
  }

  /** `FIRST_ITEM_OR_FLUID_OUTPUT` as written, with the same inverted test. */
  function FirstItemOrFluidOutputAsWritten(r: Recipe, names: Names): KeyResult
  {
    if r.outputs == [] then ConfigNameAt0(r.outputs, names)
    else if r.fluidOutputs == [] then NullKey
    else FluidNameAt0(r.fluidOutputs)
  }

  function FirstItemOrFluidOutput(r: Recipe, names: Names): KeyResult
  {
    if r.outputs != [] then ConfigNameAt0(r.outputs, names)
    else if r.fluidOutputs == [] then NullKey
    else FluidNameAt0(r.fluidOutputs)
  }

  /** The key extractors that test the array they read: null exactly on an
      empty array, never an out-of-bounds read, and otherwise the key of
      element 0 (a null fluid element throws). */
  lemma FirstKeysSpec(r: Recipe, names: Names)
    ensures FirstFluidInput(r) == NullKey <==> r.fluidInputs == []
    ensures r.fluidInputs != [] && r.fluidInputs[0].Some? ==> FirstFluidInput(r) == Key(r.fluidInputs[0].value.fluid)
    ensures r.fluidInputs != [] && r.fluidInputs[0].None? ==> FirstFluidInput(r) == Fault(NullPointer)
    ensures FirstFluidStackInput(r, names) == NullKey <==> r.fluidInputs == []
    ensures r.fluidInputs != [] && r.fluidInputs[0].Some?
            ==> FirstFluidStackInput(r, names) == Key(names.unlocalizedName(r.fluidInputs[0].value))
    ensures FirstFluidStackOutput(r, names) == NullKey <==> r.fluidOutputs == []
    ensures r.fluidOutputs != [] && r.fluidOutputs[0].Some?
            ==> FirstFluidStackOutput(r, names) == Key(names.unlocalizedName(r.fluidOutputs[0].value))
    ensures FirstItemInput(r, names) == NullKey <==> r.inputs == []
    ensures r.inputs != [] ==> FirstItemInput(r, names) == Key(names.configName(r.inputs[0]))
    ensures FirstItemOutput(r, names) == NullKey <==> r.outputs == []
    ensures r.outputs != [] ==> FirstItemOutput(r, names) == Key(names.configName(r.outputs[0]))
    ensures FirstFluidInput(r) != Fault(IndexOutOfBounds) && FirstFluidStackInput(r, names) != Fault(IndexOutOfBounds)
            && FirstFluidStackOutput(r, names) != Fault(IndexOutOfBounds)
            && FirstItemInput(r, names) != Fault(IndexOutOfBounds) && FirstItemOutput(r, names) != Fault(IndexOutOfBounds)
  {
  }

  /** `FIRST_FLUID_OUTPUT` as written: a recipe with fluid inputs and no fluid
      output reads past the end of the output array, and a recipe with a fluid
      output and no fluid input gets no key. */
  lemma FirstFluidOutputAsWrittenFails(r: Recipe)
    ensures r.fluidInputs != [] && r.fluidOutputs == [] ==> FirstFluidOutputAsWritten(r) == Fault(IndexOutOfBounds)
    ensures r.fluidInputs == [] && r.fluidOutputs != [] && r.fluidOutputs[0].Some?
            ==> FirstFluidOutputAsWritten(r) == NullKey != FirstFluidOutput(r)
  {
  }

  /** The corrected `FIRST_FLUID_OUTPUT`: null exactly when there is no fluid
      output, never an out-of-bounds read, else the name of output 0. */
  lemma FirstFluidOutputSpec(r: Recipe)
    ensures FirstFluidOutput(r) == NullKey <==> r.fluidOutputs == []
    ensures FirstFluidOutput(r) != Fault(IndexOutOfBounds)
    ensures r.fluidOutputs != [] && r.fluidOutputs[0].Some? ==> FirstFluidOutput(r) == Key(r.fluidOutputs[0].value.fluid)
  {
  }

  /** `FIRST_ITEM_OR_FLUID_INPUT` and `_OUTPUT` as written: every recipe without
      item inputs (outputs) reads past the end of the empty item array, and a
      recipe with item inputs (outputs) never gets the item key. */
  lemma FirstItemOrFluidAsWrittenFails(r: Recipe, names: Names)
    ensures r.inputs == [] ==> FirstItemOrFluidInputAsWritten(r, names) == Fault(IndexOutOfBounds)
    ensures r.inputs != [] && r.fluidInputs == [] ==> FirstItemOrFluidInputAsWritten(r, names) == NullKey
    ensures r.outputs == [] ==> FirstItemOrFluidOutputAsWritten(r, names) == Fault(IndexOutOfBounds)
    ensures r.outputs != [] && r.fluidOutputs == [] ==> FirstItemOrFluidOutputAsWritten(r, names) == NullKey
  {
  }

  /** The corrected `FIRST_ITEM_OR_FLUID_INPUT`/`_OUTPUT`: the key of the first
      item when there is one, else the name of the first fluid; null exactly
      when both arrays are empty; never an out-of-bounds read. */
  lemma FirstItemOrFluidSpec(r: Recipe, names: Names)
    ensures FirstItemOrFluidInput(r, names) == NullKey <==> r.inputs == [] && r.fluidInputs == []
    ensures r.inputs != [] ==> FirstItemOrFluidInput(r, names) == Key(names.configName(r.inputs[0]))
    ensures r.inputs == [] && r.fluidInputs != [] && r.fluidInputs[0].Some?
            ==> FirstItemOrFluidInput(r, names) == Key(r.fluidInputs[0].value.fluid)
    ensures FirstItemOrFluidInput(r, names) != Fault(IndexOutOfBounds)
    ensures FirstItemOrFluidOutput(r, names) == NullKey <==> r.outputs == [] && r.fluidOutputs == []
    ensures r.outputs != [] ==> FirstItemOrFluidOutput(r, names) == Key(names.configName(r.outputs[0]))
    ensures r.outputs == [] && r.fluidOutputs != [] && r.fluidOutputs[0].Some?
            ==> FirstItemOrFluidOutput(r, names) == Key(r.fluidOutputs[0].value.fluid)
    ensures FirstItemOrFluidOutput(r, names) != Fault(IndexOutOfBounds)
  {
  }

  /** A concrete recipe showing both findings: one item input, one fluid
      output, nothing else. */
  lemma FindingWitness(names: Names)
    ensures var r := Recipe([Some(ItemStack(1, 0, 1))], [], [], [Some(FluidStack("steam", 1000))],
                            None, 20, 30, 0, true, false, true, None);
            && FirstFluidOutputAsWritten(r) == NullKey && FirstFluidOutput(r) == Key("steam")
            && FirstItemOrFluidInputAsWritten(r, names) == NullKey
            && FirstItemOrFluidInput(r, names) == Key(names.configName(Some(ItemStack(1, 0, 1))))
            && FirstItemOrFluidOutputAsWritten(r, names) == Fault(IndexOutOfBounds)
            && FirstItemOrFluidOutput(r, names) == Key("steam")
  {
  }

  /** Host tests of the cell-to-fluid transfer: the fluid in a filled
      container, the empty-cell test, the integrated-circuit test and the
      conversion of an item into a fluid stack. */
  datatype CellHost = CellHost(
    filledFluid: Option<ItemStack> -> Option<FluidStack>,
    isCellEmpty: Option<ItemStack> -> bool,
    isCircuit: Option<ItemStack> -> bool,
    convert: Option<ItemStack> -> Option<FluidStack>)

  /** An item the transfer moves to the fluid list. */
  predicate IsCellLike(item: Option<ItemStack>, removeCircuit: bool, cells: CellHost)
  {
    cells.filledFluid(item).Some? || cells.isCellEmpty(item) || (removeCircuit && cells.isCircuit(item))
  }

  /** The items the transfer keeps, in their order. */
  function Kept(items: seq<Option<ItemStack>>, removeCircuit: bool, cells: CellHost): seq<Option<ItemStack>>
  {
    if items == [] then []
    else (if IsCellLike(items[0], removeCircuit, cells) then [] else [items[0]]) + Kept(items[1..], removeCircuit, cells)
  }

  /** The conversions of the moved items, last item first. */
  function Converted(items: seq<Option<ItemStack>>, removeCircuit: bool, cells: CellHost): seq<Option<FluidStack>>
  {
    if items == [] then []
    else Converted(items[1..], removeCircuit, cells)
         + (if IsCellLike(items[0], removeCircuit, cells) then [cells.convert(items[0])] else [])
  }

  /** The transfer: walks the items from the last to the first, removing each
      cell-like one and appending its conversion to the fluids. */
  method CellToFluid(items: seq<Option<ItemStack>>, fluids: seq<Option<FluidStack>>, removeCircuit: bool, cells: CellHost)
    returns (items': seq<Option<ItemStack>>, fluids': seq<Option<FluidStack>>)
    ensures items' == Kept(items, removeCircuit, cells)
    ensures fluids' == fluids + Converted(items, removeCircuit, cells)
  {
    items', fluids' := items, fluids;
    var i := |items|;
    assert items[i..] == [];
    while i > 0
      invariant 0 <= i <= |items|
      invariant items' == items[..i] + Kept(items[i..], removeCircuit, cells)
      invariant fluids' == fluids + Converted(items[i..], removeCircuit, cells)
    {
      i := i - 1;
      assert items[i..][1..] == items[i + 1..];
      assert items'[..i] == items[..i] && items'[i] == items[i];
      var item := items'[i];
      if IsCellLike(item, removeCircuit, cells) {
        fluids' := fluids' + [cells.convert(item)];
        items' := items'[..i] + items'[i + 1..];
      }
    }
    assert items[..0] == [];
  }

  /** Kept items keep their relative order: the filter distributes over
      concatenation. */
  lemma {:induction false} KeptAppend(a: seq<Option<ItemStack>>, b: seq<Option<ItemStack>>, removeCircuit: bool, cells: CellHost)
    ensures Kept(a + b, removeCircuit, cells) == Kept(a, removeCircuit, cells) + Kept(b, removeCircuit, cells)
  {
    if a != [] {
      assert (a + b)[1..] == a[1..] + b;
      KeptAppend(a[1..], b, removeCircuit, cells);
    } else {
      assert a + b == b;
    }
  }

  /** Conversions land in reverse item order. */
  lemma {:induction false} ConvertedAppend(a: seq<Option<ItemStack>>, b: seq<Option<ItemStack>>, removeCircuit: bool, cells: CellHost)
    ensures Converted(a + b, removeCircuit, cells) == Converted(b, removeCircuit, cells) + Converted(a, removeCircuit, cells)
  {
    if a != [] {
      assert (a + b)[1..] == a[1..] + b;
      ConvertedAppend(a[1..], b, removeCircuit, cells);
    } else {
      assert a + b == b;
    }
  }

  /** No item is lost: every item is either kept or converted, no kept item is
      cell-like, and every item that is not cell-like is kept. */
  lemma {:induction false} KeptConvertedSplit(items: seq<Option<ItemStack>>, removeCircuit: bool, cells: CellHost)
    ensures |Kept(items, removeCircuit, cells)| + |Converted(items, removeCircuit, cells)| == |items|
    ensures forall x :: x in Kept(items, removeCircuit, cells) ==> x in items && !IsCellLike(x, removeCircuit, cells)
    ensures forall x :: x in items && !IsCellLike(x, removeCircuit, cells) ==> x in Kept(items, removeCircuit, cells)
  {
    if items != [] {
      KeptConvertedSplit(items[1..], removeCircuit, cells);
      forall x | x in items && !IsCellLike(x, removeCircuit, cells)
        ensures x in Kept(items, removeCircuit, cells)
      {
        if x != items[0] {
          assert x in items[1..];
        }
      }
    }
  }

  /** A second pass whose flag removes no more than the first's (the same
      flag, or no circuit removal) finds nothing left to move: both lists are
      unchanged. */
  lemma {:induction false} CellToFluidSecondPass(items: seq<Option<ItemStack>>, first: bool, second: bool, cells: CellHost)
    requires second ==> first
    ensures Kept(Kept(items, first, cells), second, cells) == Kept(items, first, cells)
    ensures Converted(Kept(items, first, cells), second, cells) == []
  {
    if items != [] {
      CellToFluidSecondPass(items[1..], first, second, cells);
      var rest := Kept(items[1..], first, cells);
      if !IsCellLike(items[0], first, cells) {
        var kept := [items[0]] + rest;
        assert Kept(items, first, cells) == kept;
        assert kept[0] == items[0] && kept[1..] == rest;
        assert !IsCellLike(kept[0], second, cells);
        assert Kept(kept, second, cells) == [items[0]] + Kept(rest, second, cells);
      } else {
        assert Kept(items, first, cells) == rest;
      }
    }
  }

  /** `buildOrEmpty`: the built recipe as a one-element list, or the empty
      list when the builder yields nothing. */
  function BuildOrEmpty(built: Option<Recipe>): (rs: seq<Recipe>)
    ensures |rs| <= 1
    ensures rs == [] <==> built.None?
    ensures built.Some? ==> rs[0] == built.value
  {
    if built.Some? then [built.value] else []
  }
}
