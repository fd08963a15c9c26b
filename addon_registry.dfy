/** The registry of addon recipe maps: maps registered by qualified id
    (`modId@identifier`) and, per id, the actions registered before the map
    was, which run when it registers. */
module AddonRegistry {

  /** An addon recipe map, held as an opaque handle. */
  type AddonMap = nat

  /** A registration action (a consumer of a recipe map), held as an opaque
      handle. */
  type Action = nat

  /** One call `action.accept(map)`. */
  datatype Application = Application(action: Action, target: AddonMap)

  datatype Outcome = Registered | IllegalState

  /** The mod id under which registering a map is refused. */
  const GREGTECH_MOD_ID: string := "gregtech"

  /** The qualified id of a map. */
  function QualifiedId(modId: string, identifier: string): string
  {
    modId + "@" + identifier
  }

  /** Distinct (mod id, identifier) pairs give distinct qualified ids as long
      as mod ids contain no `@`. */
  lemma QualifiedIdInjective(m1: string, i1: string, m2: string, i2: string)
    requires '@' !in m1 && '@' !in m2
    requires QualifiedId(m1, i1) == QualifiedId(m2, i2)
    ensures m1 == m2 && i1 == i2
  {
    var q := QualifiedId(m1, i1);
    QualifiedIdParts(m1, i1);
    QualifiedIdParts(m2, i2);
    if |m1| < |m2| {
      assert false;
    } else if |m2| < |m1| {
      assert false;
    }
    assert m1 == q[..|m1|] == m2;
    assert i1 == q[|m1| + 1..] == i2;
  }

  /** A qualified id is the mod id, then `@`, then the identifier. */
  lemma QualifiedIdParts(modId: string, identifier: string)
    ensures |QualifiedId(modId, identifier)| == |modId| + 1 + |identifier|
    ensures forall k :: 0 <= k < |modId| ==> QualifiedId(modId, identifier)[k] == modId[k]
    ensures QualifiedId(modId, identifier)[|modId|] == '@'
  {
  }

  /** The applications of a list of actions to one map, in list order. */
  function ApplyAll(actions: seq<Action>, target: AddonMap): (apps: seq<Application>)
    ensures |apps| == |actions|
    ensures forall k :: 0 <= k < |apps| ==> apps[k] == Application(actions[k], target)
  {
    if actions == [] then [] else ApplyAll(actions[..|actions| - 1], target) + [Application(actions[|actions| - 1], target)]
  }

  /** The pending actions of an id (the multimap's `get`). */
  function Pending(delayed: map<string, seq<Action>>, id: string): seq<Action>
  {
    if id in delayed then delayed[id] else []
  }

  class Registry {
    var addonRecipeMaps: map<string, AddonMap>
    var delayedActions: map<string, seq<Action>>
    /** Every `accept` call made so far, in order. */
    var performed: seq<Application>

    /** No pending action is lost: every action pending for a registered id
        has been applied to the map registered under it. */
    ghost predicate Valid()
      reads this
    {
      forall id, a :: id in addonRecipeMaps && a in Pending(delayedActions, id)
                      ==> Application(a, addonRecipeMaps[id]) in performed
    }

    constructor ()
      ensures Valid()
      ensures addonRecipeMaps == map[] && delayedActions == map[] && performed == []
    {
      addonRecipeMaps := map[];
      delayedActions := map[];
      performed := [];
    }

    /** Registers a map under the active mod id: refused for `gregtech`,
        otherwise stored (replacing any map under the same id) and every action
        pending for that id runs on it, in order; the pending list is kept. */
    method RegisterRecipeMap(modId: string, identifier: string, recipeMap: AddonMap) returns (outcome: Outcome)
      requires Valid()
      modifies this`addonRecipeMaps, this`performed
      ensures Valid()
      ensures outcome == IllegalState <==> modId == GREGTECH_MOD_ID
      ensures outcome == IllegalState ==> addonRecipeMaps == old(addonRecipeMaps) && performed == old(performed)
      ensures outcome == Registered ==>
                addonRecipeMaps == old(addonRecipeMaps)[QualifiedId(modId, identifier) := recipeMap]
                && performed == old(performed) + ApplyAll(Pending(delayedActions, QualifiedId(modId, identifier)), recipeMap)
    {
      if modId == GREGTECH_MOD_ID {
        return IllegalState;
      }
      var id := QualifiedId(modId, identifier);
      addonRecipeMaps := addonRecipeMaps[id := recipeMap];
      var pending := Pending(delayedActions, id);
      var k := 0;
      while k < |pending|
        invariant 0 <= k <= |pending|
        invariant performed == old(performed) + ApplyAll(pending[..k], recipeMap)
        invariant addonRecipeMaps == old(addonRecipeMaps)[id := recipeMap]
      {
        assert pending[..k + 1][..k] == pending[..k];
        performed := performed + [Application(pending[k], recipeMap)];
        k := k + 1;
      }
      assert pending[..k] == pending;
      forall id', a | id' in addonRecipeMaps && a in Pending(delayedActions, id')
        ensures Application(a, addonRecipeMaps[id']) in performed
      {
        if id' == id {
          var j :| 0 <= j < |pending| && pending[j] == a;
          assert performed[|old(performed)| + j] == Application(a, recipeMap);
        } else {
          assert Application(a, addonRecipeMaps[id']) in old(performed);
        }
      }
      return Registered;
    }

    /** Registers an action for a map: it runs at once when the map is
        registered, and otherwise joins the end of the id's pending list. */
    method RegisterRecipesFor(modId: string, identifier: string, action: Action)
      requires Valid()
      modifies this`delayedActions, this`performed
      ensures Valid()
      ensures QualifiedId(modId, identifier) in addonRecipeMaps ==>
                performed == old(performed) + [Application(action, addonRecipeMaps[QualifiedId(modId, identifier)])]
                && delayedActions == old(delayedActions)
      ensures QualifiedId(modId, identifier) !in addonRecipeMaps ==>
                performed == old(performed)
                && delayedActions == old(delayedActions)[QualifiedId(modId, identifier) :=
                                       Pending(old(delayedActions), QualifiedId(modId, identifier)) + [action]]
    {
      var id := QualifiedId(modId, identifier);
      if id in addonRecipeMaps {
        performed := performed + [Application(action, addonRecipeMaps[id])];
      } else {
        delayedActions := delayedActions[id := Pending(delayedActions, id) + [action]];
      }
    }
  }

  /** Order does not matter for delivery: an action registered for an id, and
      a map registered under that id afterwards, end with the action applied
      to the map, whichever of the two came first. */
  method DeliveredEitherOrder(modId: string, identifier: string, action: Action, recipeMap: AddonMap, actionFirst: bool)
    returns (r: Registry)
    requires modId != GREGTECH_MOD_ID
    ensures fresh(r) && r.Valid()
    ensures Application(action, recipeMap) in r.performed
  {
    r := new Registry();
    var outcome;
    if actionFirst {
      r.RegisterRecipesFor(modId, identifier, action);
      outcome := r.RegisterRecipeMap(modId, identifier, recipeMap);
      assert action in Pending(r.delayedActions, QualifiedId(modId, identifier));
    } else {
      outcome := r.RegisterRecipeMap(modId, identifier, recipeMap);
      r.RegisterRecipesFor(modId, identifier, action);
    }
  }
}
