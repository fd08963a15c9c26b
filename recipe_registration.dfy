/** What registration through a recipe builder does to each candidate recipe
    before the collision check: the configured duration, the early abandonment
    of the whole request, the special value derived from builder metadata and
    the special handler; and the record of the collision checks it ran. */
module RecipeRegistration {
  import opened RecipeTypes
  import opened RecipeIndex
  import opened RecipeSearch

  /** The first non-null value of the special-value aliases, in alias order. */
  function FirstAlias(aliases: seq<Option<int>>): Option<int>
  {
    if aliases == [] then None
    else if aliases[0].Some? then aliases[0]
    else FirstAlias(aliases[1..])
  }

  /** `FirstAlias` is the value of the first non-null alias, and it is null
      exactly when every alias is. */
  lemma {:induction false} FirstAliasSpec(aliases: seq<Option<int>>)
    ensures FirstAlias(aliases).None? <==> forall i :: 0 <= i < |aliases| ==> aliases[i].None?
    ensures FirstAlias(aliases).Some? ==>
              exists i :: 0 <= i < |aliases| && aliases[i] == FirstAlias(aliases)
                          && forall j :: 0 <= j < i ==> aliases[j].None?
  {
    if aliases != [] && aliases[0].None? {
      var rest := aliases[1..];
      FirstAliasSpec(rest);
      assert forall i :: 0 <= i < |rest| ==> rest[i] == aliases[i + 1];
      if FirstAlias(rest).Some? {
        var i :| 0 <= i < |rest| && rest[i] == FirstAlias(rest) && forall j :: 0 <= j < i ==> rest[j].None?;
        assert aliases[i + 1] == FirstAlias(aliases);
        assert forall j :: 0 <= j < i + 1 ==> aliases[j].None? by {
          forall j | 0 <= j < i + 1 ensures aliases[j].None? {
            if j > 0 { assert aliases[j] == rest[j - 1]; }
          }
        }
      }
    } else if aliases != [] {
      assert aliases[0] == FirstAlias(aliases);
    }
  }

  /** The special value a recipe whose special value is 0 receives from the
      builder: the first alias value if there is one, otherwise -100 for low
      gravity plus -200 for cleanroom. */
  function DerivedSpecialValue(b: Builder): int
  {
    match FirstAlias(b.specialValueAliases)
    case Some(v) => v
    case None => (if b.lowGravity then -100 else 0) + (if b.cleanroom then -200 else 0)
  }

  /** The derivation loop: start from 0, subtract for low gravity and for
      cleanroom, then let the first non-null alias replace the result. */
  method DeriveSpecialValue(b: Builder) returns (specialValue: int)
    ensures specialValue == DerivedSpecialValue(b)
    ensures FirstAlias(b.specialValueAliases).None? ==> specialValue in {0, -100, -200, -300}
  {
    specialValue := 0;
    if b.lowGravity { specialValue := specialValue - 100; }
    if b.cleanroom { specialValue := specialValue - 200; }
    var i := 0;
    while i < |b.specialValueAliases|
      invariant 0 <= i <= |b.specialValueAliases|
      invariant FirstAlias(b.specialValueAliases) == FirstAlias(b.specialValueAliases[i..])
      invariant specialValue == (if b.lowGravity then -100 else 0) + (if b.cleanroom then -200 else 0)
    {
      assert b.specialValueAliases[i..][1..] == b.specialValueAliases[i + 1..];
      var metadata := b.specialValueAliases[i];
      if metadata.Some? {
        specialValue := metadata.value;
        return;
      }
      i := i + 1;
    }
  }

  /** What happens to one emitted candidate before the collision check. */
  datatype Screening =
    | DroppedByConfig         // configured duration is not positive: skipped
    | AbandonRequest          // too few inputs of both kinds: the request ends
    | Vetoed                  // the special handler returned null: skipped
    | Admitted(recipe: Recipe)

  /** The config key of a candidate, when the backend has a config category. */
  function ConfigKeyFor(r: Recipe, props: BackendProperties): Option<string>
  {
    if props.recipeConfigCategory.Some? then props.recipeConfigKey(r) else None
  }

  /** The candidate with its duration replaced by the configured one, when it
      has a config key. */
  function WithConfiguredDuration(r: Recipe, props: BackendProperties, host: Host): Recipe
  {
    match ConfigKeyFor(r, props)
    case Some(key) => r.(duration := host.configDuration(props.recipeConfigCategory.value, key, r.duration))
    case None => r
  }

  /** The candidate with its special value derived, when it is 0. */
  function WithSpecialValue(r: Recipe, b: Builder): Recipe
  {
    if r.specialValue == 0 then r.(specialValue := DerivedSpecialValue(b)) else r
  }

  /** The pre-collision steps for one candidate, in the order registration
      takes them. The abandonment test compares array lengths, null slots
      included. */
  function Screen(r: Recipe, b: Builder, props: BackendProperties, host: Host): Screening
  {
    var r1 := WithConfiguredDuration(r, props, host);
    if ConfigKeyFor(r, props).Some? && r1.duration <= 0 then DroppedByConfig
    else if |r1.fluidInputs| < props.minFluidInputs && |r1.inputs| < props.minItemInputs then AbandonRequest
    else
      var r2 := WithSpecialValue(r1, b);
      var r3 := if props.specialHandler.Some? then props.specialHandler.value(r2) else Some(r2);
      if r3.None? then Vetoed else Admitted(r3.value)
  }

  /** The screening of a candidate, stated by outcome: it is dropped exactly
      when a config key exists and the configured duration is not positive; it
      abandons the request exactly when, otherwise, both input counts are below
      the minimums; and without a special handler an admitted recipe carries the
      configured duration and the derived special value. */
  lemma ScreenOutcomes(r: Recipe, b: Builder, props: BackendProperties, host: Host)
    ensures Screen(r, b, props, host) == DroppedByConfig
            <==> ConfigKeyFor(r, props).Some?
                 && host.configDuration(props.recipeConfigCategory.value, ConfigKeyFor(r, props).value, r.duration) <= 0
    ensures Screen(r, b, props, host) == AbandonRequest
            <==> Screen(r, b, props, host) != DroppedByConfig
                 && |r.fluidInputs| < props.minFluidInputs && |r.inputs| < props.minItemInputs
    ensures Screen(r, b, props, host).Admitted? && ConfigKeyFor(r, props).Some? && props.specialHandler.None?
            ==> Screen(r, b, props, host).recipe.duration > 0
    ensures Screen(r, b, props, host).Admitted? && props.specialHandler.None?
            ==> Screen(r, b, props, host).recipe.specialValue
                == (if r.specialValue == 0 then DerivedSpecialValue(b) else r.specialValue)
    ensures Screen(r, b, props, host).Admitted? && ConfigKeyFor(r, props).None? && props.specialHandler.None?
            ==> Screen(r, b, props, host).recipe.duration == r.duration
  {
  }

  /** The candidates that reach the collision check, in emission order, and
      whether the request was abandoned (which ends the screening). */
  function ScreenAll(cands: seq<Recipe>, b: Builder, props: BackendProperties, host: Host): (seq<Recipe>, bool)
  {
    if cands == [] then ([], false)
    else match Screen(cands[0], b, props, host)
      case AbandonRequest => ([], true)
      case Admitted(r) =>
        var rest := ScreenAll(cands[1..], b, props, host);
        ([r] + rest.0, rest.1)
      case _ => ScreenAll(cands[1..], b, props, host)
  }

  /** The request is abandoned exactly when some emitted candidate abandons it,
      and no more candidates reach the collision check than were emitted. */
  lemma {:induction false} ScreenAllAbandons(cands: seq<Recipe>, b: Builder, props: BackendProperties, host: Host)
    ensures ScreenAll(cands, b, props, host).1
            <==> exists i :: 0 <= i < |cands| && Screen(cands[i], b, props, host) == AbandonRequest
    ensures |ScreenAll(cands, b, props, host).0| <= |cands|
  {
    if cands != [] {
      var rest := cands[1..];
      ScreenAllAbandons(rest, b, props, host);
      if Screen(cands[0], b, props, host) != AbandonRequest {
        assert ScreenAll(cands, b, props, host).1 == ScreenAll(rest, b, props, host).1;
        AbandonInTail(cands, b, props, host);
      }
    }
  }

  /** When the first candidate does not abandon, some candidate abandons
      exactly when some candidate of the tail does. */
  lemma AbandonInTail(cands: seq<Recipe>, b: Builder, props: BackendProperties, host: Host)
    requires cands != [] && Screen(cands[0], b, props, host) != AbandonRequest
    ensures (exists i :: 0 <= i < |cands| && Screen(cands[i], b, props, host) == AbandonRequest)
            <==> exists i :: 0 <= i < |cands[1..]| && Screen(cands[1..][i], b, props, host) == AbandonRequest
  {
    var rest := cands[1..];
    if exists i :: 0 <= i < |rest| && Screen(rest[i], b, props, host) == AbandonRequest {
      var i :| 0 <= i < |rest| && Screen(rest[i], b, props, host) == AbandonRequest;
      assert rest[i] == cands[i + 1];
    }
    if exists i :: 0 <= i < |cands| && Screen(cands[i], b, props, host) == AbandonRequest {
      var i :| 0 <= i < |cands| && Screen(cands[i], b, props, host) == AbandonRequest;
      assert i > 0 && rest[i - 1] == cands[i];
    }
  }

  /** Every candidate that reaches the collision check is the admitted form of
      an emitted candidate that comes before any abandoning one. */
  lemma {:induction false} ScreenAllAdmitted(cands: seq<Recipe>, b: Builder, props: BackendProperties, host: Host, k: int)
    requires 0 <= k < |ScreenAll(cands, b, props, host).0|
    ensures exists i :: 0 <= i < |cands| && Screen(cands[i], b, props, host) == Admitted(ScreenAll(cands, b, props, host).0[k])
                        && forall j :: 0 <= j < i ==> Screen(cands[j], b, props, host) != AbandonRequest
  {
    var rest := cands[1..];
    var s0 := Screen(cands[0], b, props, host);
    var all := ScreenAll(cands, b, props, host).0;
    var tail := ScreenAll(rest, b, props, host).0;
    if s0.Admitted? && k == 0 {
      assert Screen(cands[0], b, props, host) == Admitted(all[k]);
    } else {
      var k' := if s0.Admitted? then k - 1 else k;
      assert all[k] == tail[k'];
      ScreenAllAdmitted(rest, b, props, host, k');
      var i :| 0 <= i < |rest| && Screen(rest[i], b, props, host) == Admitted(tail[k'])
               && forall j :: 0 <= j < i ==> Screen(rest[j], b, props, host) != AbandonRequest;
      assert rest[i] == cands[i + 1];
      forall j | 0 <= j < i + 1 ensures Screen(cands[j], b, props, host) != AbandonRequest {
        if j > 0 { assert cands[j] == rest[j - 1]; }
      }
    }
  }

  /** Screening a suffix by its first candidate: an abandoning candidate ends
      the screening; any other leaves the rest to the next suffix, after
      adding its admitted form, if any, to the candidates checked so far
      (`checked` becomes `checked'`). */
  lemma ScreenAllAdvance(cands: seq<Recipe>, i: int, b: Builder, props: BackendProperties, host: Host,
                         checked: seq<Recipe>, checked': seq<Recipe>)
    requires 0 <= i < |cands|
    requires checked' == checked + (if Screen(cands[i], b, props, host).Admitted?
                                    then [Screen(cands[i], b, props, host).recipe] else [])
    ensures Screen(cands[i], b, props, host).AbandonRequest? ==> ScreenAll(cands[i..], b, props, host) == ([], true)
    ensures !Screen(cands[i], b, props, host).AbandonRequest? ==>
              (checked + ScreenAll(cands[i..], b, props, host).0, ScreenAll(cands[i..], b, props, host).1)
              == (checked' + ScreenAll(cands[i + 1..], b, props, host).0, ScreenAll(cands[i + 1..], b, props, host).1)
  {
    assert cands[i..][0] == cands[i];
    assert cands[i..][1..] == cands[i + 1..];
    var s := Screen(cands[i], b, props, host);
    if s.Admitted? {
      var next := ScreenAll(cands[i + 1..], b, props, host);
      assert checked + ([s.recipe] + next.0) == (checked + [s.recipe]) + next.0;
    } else {
      assert checked' == checked;
    }
  }

  /** One collision check: the candidate, the recipes present when it ran, and
      the default-search and final results of that search. */
  datatype Probe = Probe(candidate: Recipe, before: set<Recipe>, inner: FindResult, result: FindResult)

  /** The collision search for a candidate: its own inputs, no special slot,
      an accept-all validator, no cached recipe, inputs taken as unified, stack
      sizes ignored. */
  function CollisionQuery(r: Recipe): Query
  {
    Query(r.inputs, r.fluidInputs, None, (x: Recipe) => true, None, false, true)
  }

  function CandidatesOf(trace: seq<Probe>): (cs: seq<Recipe>)
    ensures |cs| == |trace| && forall j :: 0 <= j < |trace| ==> cs[j] == trace[j].candidate
  {
    if trace == [] then [] else CandidatesOf(trace[..|trace| - 1]) + [trace[|trace| - 1].candidate]
  }

  /** The candidates whose collision search failed, in order: the accepted ones. */
  function AcceptedOf(trace: seq<Probe>): seq<Recipe>
  {
    if trace == [] then []
    else AcceptedOf(trace[..|trace| - 1])
         + (if trace[|trace| - 1].result.Found? then [] else [trace[|trace| - 1].candidate])
  }

  /** The candidates whose collision search succeeded, in order: each is
      reported to the collision handler once. */
  function CollidedOf(trace: seq<Probe>): seq<Recipe>
  {
    if trace == [] then []
    else CollidedOf(trace[..|trace| - 1])
         + (if trace[|trace| - 1].result.Found? then [trace[|trace| - 1].candidate] else [])
  }

  function Elems(s: seq<Recipe>): set<Recipe>
  {
    set x | x in s
  }

  /** Every checked candidate is either accepted or reported as a collision,
      never both: the two lists split the trace by the search outcome. */
  lemma {:induction false} AcceptedCollidedSplit(trace: seq<Probe>)
    ensures |AcceptedOf(trace)| + |CollidedOf(trace)| == |trace|
    ensures forall r :: r in AcceptedOf(trace) ==> exists j :: 0 <= j < |trace| && trace[j].candidate == r && !trace[j].result.Found?
    ensures forall r :: r in CollidedOf(trace) ==> exists j :: 0 <= j < |trace| && trace[j].candidate == r && trace[j].result.Found?
  {
    if trace != [] {
      var init := trace[..|trace| - 1];
      AcceptedCollidedSplit(init);
      assert forall j :: 0 <= j < |init| ==> init[j] == trace[j];
    }
  }

  /** Each probe ran the collision search against the recipes accepted so far:
      the recipes present before the request plus the candidates accepted
      earlier in it. */
  ghost predicate TraceSound(trace: seq<Probe>, start: set<Recipe>, props: BackendProperties, hooks: Hooks, host: Host)
  {
    forall j :: 0 <= j < |trace| ==>
      && trace[j].before == start + Elems(AcceptedOf(trace[..j]))
      && FindSpec(StateOf(trace[j].before), props, hooks, host, CollisionQuery(trace[j].candidate),
                  trace[j].inner, trace[j].result)
  }

  /** Extending a sound trace by a probe run against the recipes accepted so
      far keeps it sound, and files the candidate under exactly one of the
      two lists. */
  lemma {:induction false} TraceStep(trace: seq<Probe>, start: set<Recipe>, p: Probe,
                                     props: BackendProperties, hooks: Hooks, host: Host)
    requires TraceSound(trace, start, props, hooks, host)
    requires p.before == start + Elems(AcceptedOf(trace))
    requires FindSpec(StateOf(p.before), props, hooks, host, CollisionQuery(p.candidate), p.inner, p.result)
    ensures TraceSound(trace + [p], start, props, hooks, host)
    ensures CandidatesOf(trace + [p]) == CandidatesOf(trace) + [p.candidate]
    ensures AcceptedOf(trace + [p]) == AcceptedOf(trace) + (if p.result.Found? then [] else [p.candidate])
    ensures CollidedOf(trace + [p]) == CollidedOf(trace) + (if p.result.Found? then [p.candidate] else [])
    ensures Elems(AcceptedOf(trace + [p])) == Elems(AcceptedOf(trace)) + (if p.result.Found? then {} else {p.candidate})
  {
    var t := trace + [p];
    assert t[..|trace|] == trace;
    forall j | 0 <= j < |t|
      ensures t[j].before == start + Elems(AcceptedOf(t[..j]))
    {
      if j < |trace| {
        assert t[..j] == trace[..j];
      }
    }
  }

  /** No silent duplicate: with the base class hooks, a candidate whose
      collision search meets an already accepted recipe that matches its inputs
      and shares one of its item keys is reported as a collision, not added. */
  lemma {:induction false} DuplicateIsRejected(before: set<Recipe>, props: BackendProperties, hooks: Hooks, host: Host,
                                              c: Recipe, inner: FindResult, res: FindResult, r0: Recipe, i: int)
    requires DefaultHooks(hooks)
    requires FindSpec(StateOf(before), props, hooks, host, CollisionQuery(c), inner, res)
    requires r0 in before && Acceptable(r0, CollisionQuery(c), props, host)
    requires !BelowMinimums(CollisionQuery(c), props, host)
    requires 0 <= i < |c.inputs| && c.inputs[i].Some? && ExactKey(c.inputs[i].value) in ItemKeysOf(r0)
    ensures res.Found?
  {
    DoFindCompleteForItems(StateOf(before), props, host, CollisionQuery(c), inner, r0, i);
  }
}
