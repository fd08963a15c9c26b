/** The industrial multi-machine: a multiblock with three machine modes whose
    recipe map is picked by the mode and by the programmed circuit among its
    inputs. Its processing logic remembers the last circuit and mode and drops
    its cached recipe when either changes; in misc mode it searches every input
    source separately, dual hatches first, then solidifier hatches, then buses. */
module IndustrialMultiMachine {
  import opened RecipeTypes

  const MACHINEMODE_METAL: int := 0
  const MACHINEMODE_FLUID: int := 1
  const MACHINEMODE_MISC: int := 2

  /** Rows are machine modes, columns are the circuit configurations 20, 21
      and 22; an entry is a recipe-map id. */
  const MODE_MAP: seq<seq<int>> := [[0, 1, 2], [3, 4, 5], [6, 7, 8]]

  /** The recipe maps the machine can run. */
  datatype MapName =
    | Compressor | Lathe | Polarizer
    | Fermenting | FluidExtraction | Extractor
    | LaserEngraver | Autoclave | FluidSolidifier

  /** `getAvailableRecipeMaps`, in its listed order. */
  const AVAILABLE_MAPS: seq<MapName> :=
    [Compressor, Lathe, Polarizer, Fermenting, FluidExtraction, Extractor, LaserEngraver, Autoclave, FluidSolidifier]

  /** `getRecipeMap(int)`: the map of a recipe-map id, `None` (null) for an id
      outside the table. The ids select the available maps in their listed
      order. */
  function RecipeMapFor(aMode: int): (m: Option<MapName>)
    ensures m.Some? <==> 0 <= aMode < |AVAILABLE_MAPS|
    ensures m.Some? ==> m.value == AVAILABLE_MAPS[aMode]
  {
    if aMode == 0 then Some(Compressor)
    else if aMode == 1 then Some(Lathe)
    else if aMode == 2 then Some(Polarizer)
    else if aMode == 3 then Some(Fermenting)
    else if aMode == 4 then Some(FluidExtraction)
    else if aMode == 5 then Some(Extractor)
    else if aMode == 6 then Some(LaserEngraver)
    else if aMode == 7 then Some(Autoclave)
    else if aMode == 8 then Some(FluidSolidifier)
    else None
  }

  /** The column of a circuit configuration in `MODE_MAP`, -1 for any other. */
  function CircuitColumn(damage: int): int
  {
    if damage == 20 then 0 else if damage == 21 then 1 else if damage == 22 then 2 else -1
  }

  /** `getCircuitID`: the `MODE_MAP` entry of the machine mode and the circuit's
      configuration; `None` where the array access throws (a mode outside the
      three rows, or a configuration outside 20..22). */
  function CircuitId(machineMode: int, circuit: ItemStack): (id: Option<int>)
    ensures id.Some? <==> 0 <= machineMode < 3 && 20 <= circuit.meta <= 22
    ensures id.Some? ==> id.value == 3 * machineMode + (circuit.meta - 20)
  {
    var t := CircuitColumn(circuit.meta);
    if 0 <= machineMode < |MODE_MAP| && 0 <= t < |MODE_MAP[machineMode]| then Some(MODE_MAP[machineMode][t])
    else None
  }

  /** Every circuit id selects a map, and distinct (mode, configuration)
      pairs select distinct maps. */
  lemma CircuitIdSelectsOwnMap(mode1: int, c1: ItemStack, mode2: int, c2: ItemStack)
    requires CircuitId(mode1, c1).Some? && CircuitId(mode2, c2).Some?
    ensures RecipeMapFor(CircuitId(mode1, c1).value).Some?
    ensures RecipeMapFor(CircuitId(mode1, c1).value) == RecipeMapFor(CircuitId(mode2, c2).value)
            <==> mode1 == mode2 && c1.meta == c2.meta
  {
    var i1, i2 := CircuitId(mode1, c1).value, CircuitId(mode2, c2).value;
    if RecipeMapFor(i1) == RecipeMapFor(i2) {
      AvailableMapsDistinct(i1, i2);
    }
  }

  /** The available maps are pairwise distinct. */
  lemma AvailableMapsDistinct(i: int, j: int)
    requires 0 <= i < |AVAILABLE_MAPS| && 0 <= j < |AVAILABLE_MAPS|
    requires AVAILABLE_MAPS[i] == AVAILABLE_MAPS[j]
    ensures i == j
  {
  }

  /** `nextMachineMode`'s choice: metal, then fluid, then misc, then back to
      metal; any other mode goes to metal. */
  function NextMode(machineMode: int): (next: int)
    ensures 0 <= next < 3
    ensures 0 <= machineMode < 3 ==> next == (machineMode + 1) % 3
    ensures !(0 <= machineMode < 3) ==> next == MACHINEMODE_METAL
  {
    if machineMode == MACHINEMODE_METAL then MACHINEMODE_FLUID
    else if machineMode == MACHINEMODE_FLUID then MACHINEMODE_MISC
    else MACHINEMODE_METAL
  }

  /** Three steps of the mode cycle come back to the start, and no step stays
      put. */
  lemma NextModeCycles(machineMode: int)
    requires 0 <= machineMode < 3
    ensures NextMode(machineMode) != machineMode
    ensures NextMode(NextMode(NextMode(machineMode))) == machineMode
  {
  }

  /** `getMaxParallelRecipes`, given the voltage tier of the machine's best
      energy hatch: two parallels per tier. */
  function MaxParallelRecipes(tier: int): int
  {
    2 * tier
  }

  /** The configured pollution of each machine mode. */
  datatype PollutionConfig = PollutionConfig(metal: int, fluid: int, misc: int)

  /** `getPollutionPerSecond`: the configured value of the current mode; any
      mode other than metal and fluid pollutes as misc. */
  function PollutionPerSecond(machineMode: int, config: PollutionConfig): (p: int)
    ensures 0 <= machineMode < 3 ==> p == [config.metal, config.fluid, config.misc][machineMode]
    ensures machineMode != MACHINEMODE_METAL && machineMode != MACHINEMODE_FLUID ==> p == config.misc
  {
    match machineMode
    case 0 => config.metal
    case 1 => config.fluid
    case _ => config.misc
  }

  /** The outcome of one recipe check. `NoRecipe` is the registry's
      `NO_RECIPE`; every other failure is "interesting". */
  datatype CheckResult = NoRecipe | Success(id: nat) | Failure(id: nat)

  /** The compression-tier metadata of a recipe, 0 when absent. */
  function CompressionTier(recipe: Recipe): int
  {
    if recipe.compressionTier.Some? then recipe.compressionTier.value else 0
  }

  /** `validateRecipe`: a recipe that needs compression (tier above 0) is
      refused with `NO_RECIPE`; any other goes to the inherited check. */
  function ValidateRecipe(recipe: Recipe, inherited: Recipe -> CheckResult): (r: CheckResult)
    ensures CompressionTier(recipe) > 0 ==> r == NoRecipe
    ensures CompressionTier(recipe) <= 0 ==> r == inherited(recipe)
  {
    if recipe.compressionTier.Some? && recipe.compressionTier.value > 0 then NoRecipe else inherited(recipe)
  }

  /** What the search of a circuit among the inputs ends with: the circuit,
      none, or a null element reached first (a `NullPointerException`). */
  datatype CircuitScan = Found(circuit: ItemStack) | NotFound | NullElement

  /** A programmed circuit in one of the three configurations this machine
      reads. */
  predicate IsModeCircuit(s: ItemStack, circuitItem: nat)
  {
    s.item == circuitItem && 20 <= s.meta <= 22
  }

  /** Every slot before `k` holds a stack that is not a mode circuit. */
  predicate PassedBefore(t: seq<Option<ItemStack>>, circuitItem: nat, k: int)
    requires 0 <= k <= |t|
  {
    forall q :: 0 <= q < k ==> t[q].Some? && !IsModeCircuit(t[q].value, circuitItem)
  }

  /** The outcome of `getCircuit`, as a function of the inputs. */
  function CircuitIn(t: seq<Option<ItemStack>>, circuitItem: nat): (r: CircuitScan)
    ensures r.Found? ==> IsModeCircuit(r.circuit, circuitItem)
  {
    if t == [] then NotFound
    else if t[0].None? then NullElement
    else if IsModeCircuit(t[0].value, circuitItem) then Found(t[0].value)
    else CircuitIn(t[1..], circuitItem)
  }

  /** The scan stops at the first slot that is null or a mode circuit: it
      finds that circuit, fails on that null, or finds nothing when there is
      no such slot. */
  lemma {:induction false} CircuitInSpec(t: seq<Option<ItemStack>>, circuitItem: nat)
    ensures CircuitIn(t, circuitItem).Found? ==>
              exists k :: 0 <= k < |t| && PassedBefore(t, circuitItem, k)
                          && t[k] == Some(CircuitIn(t, circuitItem).circuit)
                          && IsModeCircuit(t[k].value, circuitItem)
    ensures CircuitIn(t, circuitItem).NullElement? ==>
              exists k :: 0 <= k < |t| && PassedBefore(t, circuitItem, k) && t[k].None?
    ensures CircuitIn(t, circuitItem).NotFound? <==> PassedBefore(t, circuitItem, |t|)
  {
    if t != [] && t[0].Some? && !IsModeCircuit(t[0].value, circuitItem) {
      var rest := t[1..];
      CircuitInSpec(rest, circuitItem);
      if CircuitIn(rest, circuitItem).Found? {
        var k :| 0 <= k < |rest| && PassedBefore(rest, circuitItem, k)
                 && rest[k] == Some(CircuitIn(rest, circuitItem).circuit)
                 && IsModeCircuit(rest[k].value, circuitItem);
        assert PassedBefore(t, circuitItem, k + 1) by {
          forall q | 0 <= q < k + 1 ensures t[q].Some? && !IsModeCircuit(t[q].value, circuitItem) {
            if q > 0 { assert t[q] == rest[q - 1]; }
          }
        }
        assert t[k + 1] == rest[k];
      } else if CircuitIn(rest, circuitItem).NullElement? {
        var k :| 0 <= k < |rest| && PassedBefore(rest, circuitItem, k) && rest[k].None?;
        assert PassedBefore(t, circuitItem, k + 1) by {
          forall q | 0 <= q < k + 1 ensures t[q].Some? && !IsModeCircuit(t[q].value, circuitItem) {
            if q > 0 { assert t[q] == rest[q - 1]; }
          }
        }
        assert t[k + 1] == rest[k];
      }
      if PassedBefore(t, circuitItem, |t|) {
        assert PassedBefore(rest, circuitItem, |rest|) by {
          forall q | 0 <= q < |rest| ensures rest[q].Some? && !IsModeCircuit(rest[q].value, circuitItem) {
            assert rest[q] == t[q + 1];
          }
        }
      }
      if PassedBefore(rest, circuitItem, |rest|) {
        forall q | 0 <= q < |t| ensures t[q].Some? && !IsModeCircuit(t[q].value, circuitItem) {
          if q > 0 { assert t[q] == rest[q - 1]; }
        }
      }
    }
  }

  /** `getCircuit`: the first programmed circuit in configuration 20..22 among
      the inputs, walking them in order. */
  method GetCircuit(t: seq<Option<ItemStack>>, circuitItem: nat) returns (r: CircuitScan)
    ensures r == CircuitIn(t, circuitItem)
  {
    var k := 0;
    while k < |t|
      invariant 0 <= k <= |t|
      invariant CircuitIn(t[k..], circuitItem) == CircuitIn(t, circuitItem)
    {
      assert t[k..][0] == t[k] && t[k..][1..] == t[k + 1..];
      var j := t[k];
      if j.None? {
        return NullElement;
      }
      if j.value.item == circuitItem {
        if j.value.meta >= 20 && j.value.meta <= 22 {
          return Found(j.value);
        }
      }
      k := k + 1;
    }
    return NotFound;
  }

  /** Host code the machine calls without seeing it: `integratedCircuit(n)`
      is `getIntegratedCircuit(n)`, `stacksEqual` is `areStacksEqual` on two
      non-null stacks, and `process` is the inherited processing run on one set
      of inputs. */
  datatype MachineHost = MachineHost(
    integratedCircuit: int -> ItemStack,
    stacksEqual: (ItemStack, ItemStack) -> bool,
    process: Attempt -> CheckResult)

  /** The item id of a programmed circuit. */
  function CircuitItem(host: MachineHost): nat
  {
    host.integratedCircuit(0).item
  }

  /** What `findRecipeMatches` leads to: no candidates, a search of the
      inherited matcher in a map, or an exception. */
  datatype MatchSearch = NoMatches | SearchIn(recipeMap: MapName) | NullPointer | IndexOutOfBounds

  /** Whether the found circuit differs from the remembered one (`lastCircuit`
      null counts as different). */
  predicate CircuitChanged(lastCircuit: Option<ItemStack>, circuit: ItemStack, host: MachineHost)
  {
    lastCircuit.None? || !host.stacksEqual(circuit, lastCircuit.value)
  }

  /** The machine's processing logic, reduced to the state its recipe lookup
      keeps between runs. */
  class ProcessingLogic {
    var lastCircuit: Option<ItemStack>
    var lastMode: int
    var lastRecipe: Option<Recipe>

    constructor ()
      ensures lastCircuit == None && lastMode == -1 && lastRecipe == None
    {
      lastCircuit, lastMode, lastRecipe := None, -1, None;
    }

    /** `findRecipeMatches`: without a circuit there is nothing to search
        and nothing changes. With one, a changed circuit or a changed mode
        drops the cached recipe and is remembered, and the search runs in
        the map of the circuit's id. */
    method FindRecipeMatches(inputItems: seq<Option<ItemStack>>, machineMode: int, host: MachineHost)
      returns (s: MatchSearch)
      modifies this
      ensures CircuitIn(inputItems, CircuitItem(host)).NotFound? ==>
                s == NoMatches && unchanged(this)
      ensures CircuitIn(inputItems, CircuitItem(host)).NullElement? ==>
                s == NullPointer && unchanged(this)
      ensures CircuitIn(inputItems, CircuitItem(host)).Found? ==>
                var c := CircuitIn(inputItems, CircuitItem(host)).circuit;
                var changed := CircuitChanged(old(lastCircuit), c, host);
                && lastCircuit == (if changed then Some(c) else old(lastCircuit))
                && lastMode == machineMode
                && lastRecipe == (if changed || machineMode != old(lastMode) then None else old(lastRecipe))
                && s == (if 0 <= machineMode < 3 then SearchIn(AVAILABLE_MAPS[3 * machineMode + c.meta - 20])
                         else IndexOutOfBounds)
    {
      var scan := GetCircuit(inputItems, CircuitItem(host));
      if scan.NotFound? {
        return NoMatches;
      } else if scan.NullElement? {
        return NullPointer;
      }
      CircuitInSpec(inputItems, CircuitItem(host));
      var circuit := scan.circuit;
      if lastCircuit.None? || !host.stacksEqual(circuit, lastCircuit.value) {
        lastRecipe := None;
        lastCircuit := Some(circuit);
      }
      if machineMode != lastMode {
        lastRecipe := None;
        lastMode := machineMode;
      }
      var id := CircuitId(machineMode, circuit);
      if id.None? {
        return IndexOutOfBounds;
      }
      var foundMap := RecipeMapFor(id.value);
      if foundMap.None? {
        return NoMatches;
      }
      return SearchIn(foundMap.value);
    }
  }

  /** The machine's own state that mode switching touches. */
  class Machine {
    var machineMode: int
    var mLastRecipe: Option<Recipe>

    constructor (machineMode: int)
      ensures this.machineMode == machineMode && mLastRecipe == None
    {
      this.machineMode, mLastRecipe := machineMode, None;
    }

    /** `nextMachineMode`: drops the machine's last recipe and answers the
        next mode of the cycle, leaving the current mode to the caller. */
    method NextMachineMode() returns (next: int)
      modifies this`mLastRecipe
      ensures mLastRecipe == None
      ensures next == NextMode(machineMode)
    {
      mLastRecipe := None;
      if machineMode == MACHINEMODE_METAL {
        next := MACHINEMODE_FLUID;
      } else if machineMode == MACHINEMODE_FLUID {
        next := MACHINEMODE_MISC;
      } else {
        next := MACHINEMODE_METAL;
      }
    }
  }

  /** One set of inputs handed to the processing logic. */
  datatype Attempt = Attempt(items: seq<Option<ItemStack>>, fluids: seq<Option<FluidStack>>)

  /** One inventory of a dual input hatch. */
  datatype DualInventory = DualInventory(itemInputs: seq<Option<ItemStack>>, fluidInputs: seq<Option<FluidStack>>)

  /** A dual input hatch: items shared by all its inventories, and the
      inventories. */
  datatype DualHatch = DualHatch(sharedItems: seq<Option<ItemStack>>, inventories: seq<DualInventory>)

  /** A fluid input hatch; a solidifier hatch also holds non-consumable items
      (`None` where the list is null). */
  datatype InputHatch = InputHatch(solidifier: bool, nonConsumables: Option<seq<Option<ItemStack>>>, fluid: Option<FluidStack>)

  /** An input bus and its slots; crafting-input buses are skipped. */
  datatype InputBus = InputBus(craftingInput: bool, slots: seq<Option<ItemStack>>)

  /** The hatches and buses of a formed machine, with what the inherited code
      reports about them. */
  datatype Hatches = Hatches(
    dualInputHatches: seq<DualHatch>,
    inputHatches: seq<InputHatch>,
    inputBusses: seq<InputBus>,
    storedFluids: seq<Option<FluidStack>>,
    controllerSlot: Option<ItemStack>,
    canUseControllerSlot: bool,
    supportsCraftingMEBuffer: bool)

  /** The attempts of one dual hatch: the shared items followed by each
      inventory's items, with that inventory's fluids. */
  function InventoryAttempts(shared: seq<Option<ItemStack>>, inventories: seq<DualInventory>): (a: seq<Attempt>)
    ensures |a| == |inventories|
    ensures forall k :: 0 <= k < |a| ==> a[k] == Attempt(shared + inventories[k].itemInputs, inventories[k].fluidInputs)
  {
    if inventories == [] then []
    else [Attempt(shared + inventories[0].itemInputs, inventories[0].fluidInputs)]
         + InventoryAttempts(shared, inventories[1..])
  }

  /** The attempts of the dual hatches, hatch by hatch. */
  function DualAttempts(hatches: seq<DualHatch>): seq<Attempt>
  {
    if hatches == [] then []
    else InventoryAttempts(hatches[0].sharedItems, hatches[0].inventories) + DualAttempts(hatches[1..])
  }

  /** The attempts of the solidifier hatches that hold both items and a
      fluid: their items plus a circuit in configuration 22, and their fluid. */
  function SolidifierAttempts(hatches: seq<InputHatch>, circuit22: ItemStack): seq<Attempt>
  {
    if hatches == [] then []
    else
      var h := hatches[0];
      (if h.solidifier && h.nonConsumables.Some? && h.fluid.Some?
       then [Attempt(h.nonConsumables.value + [Some(circuit22)], [h.fluid])]
       else [])
      + SolidifierAttempts(hatches[1..], circuit22)
  }

  /** The non-null slots of a bus, from the highest slot to the lowest. */
  function NonNullReversed(slots: seq<Option<ItemStack>>): seq<Option<ItemStack>>
  {
    if slots == [] then []
    else (if slots[|slots| - 1].Some? then [slots[|slots| - 1]] else [])
         + NonNullReversed(slots[..|slots| - 1])
  }

  /** The collected items are exactly the bus's non-null stacks: one per
      non-null slot, and nothing else. */
  lemma {:induction false} NonNullReversedSpec(slots: seq<Option<ItemStack>>)
    ensures |NonNullReversed(slots)| == Present(slots)
    ensures forall x :: x in NonNullReversed(slots) <==> x in slots && x.Some?
  {
    if slots != [] {
      var init := slots[..|slots| - 1];
      NonNullReversedSpec(init);
      assert slots == init + [slots[|slots| - 1]];
    }
  }

  /** The item-collecting loop of one bus: slots from the highest index down,
      skipping nulls. */
  method CollectBusInputs(slots: seq<Option<ItemStack>>) returns (items: seq<Option<ItemStack>>)
    ensures items == NonNullReversed(slots)
  {
    items := [];
    var i := |slots| - 1;
    assert slots[..i + 1] == slots;
    while i >= 0
      invariant -1 <= i < |slots|
      invariant items + NonNullReversed(slots[..i + 1]) == NonNullReversed(slots)
    {
      assert slots[..i + 1][..i] == slots[..i];
      var stored := slots[i];
      if stored != None {
        items := items + [stored];
      }
      i := i - 1;
    }
    assert slots[..0] == [];
  }

  /** The items of one bus attempt: its collected slots, then the controller
      slot when it may be used and is not empty. */
  function BusItems(bus: InputBus, io: Hatches): seq<Option<ItemStack>>
  {
    NonNullReversed(bus.slots)
    + (if io.canUseControllerSlot && io.controllerSlot.Some? then [io.controllerSlot] else [])
  }

  /** The attempts of the buses that are not crafting-input buses, each with
      the machine's stored fluids. */
  function BusAttempts(buses: seq<InputBus>, io: Hatches): seq<Attempt>
  {
    if buses == [] then []
    else (if buses[0].craftingInput then [] else [Attempt(BusItems(buses[0], io), io.storedFluids)])
         + BusAttempts(buses[1..], io)
  }

  /** The bus loop's construction of its attempts. */
  method BuildBusAttempts(io: Hatches) returns (attempts: seq<Attempt>)
    ensures attempts == BusAttempts(io.inputBusses, io)
  {
    attempts := [];
    var b := 0;
    while b < |io.inputBusses|
      invariant 0 <= b <= |io.inputBusses|
      invariant attempts + BusAttempts(io.inputBusses[b..], io) == BusAttempts(io.inputBusses, io)
    {
      BusAttemptsStep(io.inputBusses, b, io);
      var more := BusAttemptOf(io.inputBusses[b], io);
      AppendAssoc(attempts, more, BusAttempts(io.inputBusses[b + 1..], io));
      attempts := attempts + more;
      b := b + 1;
    }
  }

  /** One pass of the bus loop: nothing for a crafting-input bus, otherwise
      the attempt of its collected slots, the controller slot when allowed,
      and the stored fluids. */
  method BusAttemptOf(bus: InputBus, io: Hatches) returns (more: seq<Attempt>)
    ensures more == if bus.craftingInput then [] else [Attempt(BusItems(bus, io), io.storedFluids)]
  {
    if bus.craftingInput {
      return [];
    }
    var inputItems := CollectBusInputs(bus.slots);
    if io.canUseControllerSlot && io.controllerSlot != None {
      inputItems := inputItems + [io.controllerSlot];
    }
    assert inputItems == BusItems(bus, io);
    more := [Attempt(inputItems, io.storedFluids)];
  }

  /** The bus attempts of a suffix, unrolled by its first bus. */
  lemma BusAttemptsStep(buses: seq<InputBus>, b: int, io: Hatches)
    requires 0 <= b < |buses|
    ensures BusAttempts(buses[b..], io)
         == (if buses[b].craftingInput then [] else [Attempt(BusItems(buses[b], io), io.storedFluids)])
            + BusAttempts(buses[b + 1..], io)
  {
    assert buses[b..][0] == buses[b] && buses[b..][1..] == buses[b + 1..];
  }

  lemma AppendAssoc<T>(a: seq<T>, b: seq<T>, c: seq<T>)
    ensures a + (b + c) == (a + b) + c
  {
  }

  /** Every attempt of a misc-mode check, in the order they are tried. */
  function AllAttempts(io: Hatches, host: MachineHost): seq<Attempt>
  {
    (if io.supportsCraftingMEBuffer then DualAttempts(io.dualInputHatches) else [])
    + SolidifierAttempts(io.inputHatches, host.integratedCircuit(22))
    + BusAttempts(io.inputBusses, io)
  }

  /** The result of each attempt. */
  function Results(attempts: seq<Attempt>, process: Attempt -> CheckResult): (rs: seq<CheckResult>)
    ensures |rs| == |attempts|
    ensures forall k :: 0 <= k < |rs| ==> rs[k] == process(attempts[k])
  {
    if attempts == [] then [] else [process(attempts[0])] + Results(attempts[1..], process)
  }

  /** The results of two lists of attempts run one after the other. */
  lemma ResultsAppend(a: seq<Attempt>, b: seq<Attempt>, process: Attempt -> CheckResult)
    ensures Results(a + b, process) == Results(a, process) + Results(b, process)
  {
    var l, r := Results(a + b, process), Results(a, process) + Results(b, process);
    assert forall k :: 0 <= k < |l| ==> l[k] == r[k];
  }

  /** How `doCheckRecipe` settles a run of results, given the result kept so
      far: the first success ends it; a failure other than `NO_RECIPE`
      replaces the kept result. */
  function Settle(results: seq<CheckResult>, kept: CheckResult): CheckResult
  {
    if results == [] then kept
    else if results[0].Success? then results[0]
    else Settle(results[1..], if results[0] != NoRecipe then results[0] else kept)
  }

  /** Settling a run is settling its first part, and then the rest from
      there unless the first part already succeeded. */
  lemma {:induction false} SettleAppend(a: seq<CheckResult>, b: seq<CheckResult>, kept: CheckResult)
    requires !kept.Success?
    ensures Settle(a + b, kept) == (if Settle(a, kept).Success? then Settle(a, kept) else Settle(b, Settle(a, kept)))
  {
    if a != [] {
      assert (a + b)[0] == a[0] && (a + b)[1..] == a[1..] + b;
      if !a[0].Success? {
        SettleAppend(a[1..], b, if a[0] != NoRecipe then a[0] else kept);
      }
    } else {
      assert a + b == b;
    }
  }

  /** What a settled run means: it succeeds exactly when some result does,
      and then it is the first success; otherwise it is the last failure
      other than `NO_RECIPE`, or the kept result when every one was
      `NO_RECIPE`. */
  lemma {:induction false} SettleSpec(rs: seq<CheckResult>, kept: CheckResult)
    requires !kept.Success?
    ensures Settle(rs, kept).Success? <==> exists k :: 0 <= k < |rs| && rs[k].Success?
    ensures Settle(rs, kept).Success? ==>
              exists k :: 0 <= k < |rs| && Settle(rs, kept) == rs[k]
                          && forall q :: 0 <= q < k ==> !rs[q].Success?
    ensures !Settle(rs, kept).Success? ==>
              (Settle(rs, kept) == kept && forall k :: 0 <= k < |rs| ==> rs[k] == NoRecipe)
              || exists k :: 0 <= k < |rs| && Settle(rs, kept) == rs[k] && rs[k] != NoRecipe
                             && forall q :: k < q < |rs| ==> rs[q] == NoRecipe
  {
    if rs != [] && !rs[0].Success? {
      var rest := rs[1..];
      var kept' := if rs[0] != NoRecipe then rs[0] else kept;
      SettleSpec(rest, kept');
      if Settle(rs, kept).Success? {
        var k :| 0 <= k < |rest| && Settle(rest, kept') == rest[k] && forall q :: 0 <= q < k ==> !rest[q].Success?;
        assert rs[k + 1] == rest[k];
        assert forall q :: 0 < q < k + 1 ==> rs[q] == rest[q - 1];
      } else {
        assert forall k :: 0 <= k < |rest| ==> rest[k] == rs[k + 1];
        if Settle(rest, kept') == kept' && forall k :: 0 <= k < |rest| ==> rest[k] == NoRecipe {
          if rs[0] != NoRecipe {
            assert forall q :: 0 < q < |rs| ==> rs[q] == NoRecipe;
          }
        } else {
          var k :| 0 <= k < |rest| && Settle(rest, kept') == rest[k] && rest[k] != NoRecipe
                   && forall q :: k < q < |rest| ==> rest[q] == NoRecipe;
          assert rs[k + 1] == rest[k];
        }
      }
    }
  }

  /** One phase of the misc-mode check: each attempt in turn, returning on the
      first success and remembering the last failure other than `NO_RECIPE`. */
  method RunAttempts(attempts: seq<Attempt>, kept: CheckResult, process: Attempt -> CheckResult)
    returns (result: CheckResult)
    requires !kept.Success?
    ensures result == Settle(Results(attempts, process), kept)
  {
    result := kept;
    var k := 0;
    while k < |attempts|
      invariant 0 <= k <= |attempts| && !result.Success?
      invariant Settle(Results(attempts[k..], process), result) == Settle(Results(attempts, process), kept)
    {
      assert attempts[k..][0] == attempts[k] && attempts[k..][1..] == attempts[k + 1..];
      var foundResult := process(attempts[k]);
      if foundResult.Success? {
        return foundResult;
      }
      if foundResult != NoRecipe {
        result := foundResult;
      }
      k := k + 1;
    }
  }

  /** What `doCheckRecipe` leads to: the inherited check (outside misc mode)
      or a result of its own search. */
  datatype CheckOutcome = InheritedCheck | Checked(result: CheckResult)

  /** `doCheckRecipe`: outside misc mode the inherited check runs. In misc
      mode the dual hatches' inventories, then the solidifier hatches, then
      the buses are tried one by one; the first success is the result, and
      otherwise the last failure other than `NO_RECIPE`, or `NO_RECIPE`. */
  method DoCheckRecipe(machineMode: int, io: Hatches, host: MachineHost) returns (outcome: CheckOutcome)
    ensures machineMode != MACHINEMODE_MISC ==> outcome == InheritedCheck
    ensures machineMode == MACHINEMODE_MISC ==>
              outcome == Checked(Settle(Results(AllAttempts(io, host), host.process), NoRecipe))
  {
    if machineMode != MACHINEMODE_MISC {
      return InheritedCheck;
    }
    var dual := if io.supportsCraftingMEBuffer then DualAttempts(io.dualInputHatches) else [];
    var solid := SolidifierAttempts(io.inputHatches, host.integratedCircuit(22));
    var bus := BuildBusAttempts(io);
    ResultsAppend(dual + solid, bus, host.process);
    ResultsAppend(dual, solid, host.process);
    var rDual, rSolid, rBus := Results(dual, host.process), Results(solid, host.process), Results(bus, host.process);
    SettleAppend(rDual + rSolid, rBus, NoRecipe);
    SettleAppend(rDual, rSolid, NoRecipe);
    var result := RunAttempts(dual, NoRecipe, host.process);
    if result.Success? {
      return Checked(result);
    }
    SettleAppend(rSolid, rBus, result);
    result := RunAttempts(solid, result, host.process);
    if result.Success? {
      return Checked(result);
    }
    result := RunAttempts(bus, result, host.process);
    return Checked(result);
  }
}
