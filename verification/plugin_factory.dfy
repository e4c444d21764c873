/**
 * `PluginFactory`: the registries of primary-generator, user-action and
 * biasing-operator builders by class name, the generators and operators
 * created from them, and the five user-action dispatchers.
 *
 * Builders are functions from (instance name, parameters) to the object
 * they build; `G`, `A` and `O` stand for generators, user actions and
 * biasing operators.
 */
module PluginFactory {
  import opened Wrappers
  import opened Parameters
  import opened UserActionKinds

  type Builder<T> = (string, Parameters) -> T

  datatype Factory<G, A, O> = Factory(
    generatorBuilders: map<string, Builder<G>>,
    generators: seq<G>,
    actionBuilders: map<string, Builder<A>>,
    dispatchers: Dispatchers<A>,
    operatorBuilders: map<string, Builder<O>>,
    operators: seq<O>)

  /** Registering a class name a second time is an error; a new name maps to its builder. */
  function Register<T>(reg: map<string, Builder<T>>, className: string, b: Builder<T>, duplicate: string)
    : (r: Result<map<string, Builder<T>>>)
    ensures r.Err? <==> className in reg
    ensures r.Err? ==> r.error == duplicate
    ensures r.Ok? ==> r.value.Keys == reg.Keys + {className} && r.value[className] == b
    ensures r.Ok? ==> forall n :: n in reg ==> r.value[n] == reg[n]
  {
    if className in reg then Err(duplicate) else Ok(reg[className := b])
  }

  function RegisterGenerator<G, A, O>(f: Factory<G, A, O>, className: string, b: Builder<G>): (r: Result<Factory<G, A, O>>)
    ensures r.Err? <==> className in f.generatorBuilders
    ensures r.Err? ==> r.error == "ExistingGeneratorDefinition"
    ensures r.Ok? ==> r.value == f.(generatorBuilders := f.generatorBuilders[className := b])
  {
    var reg :- Register(f.generatorBuilders, className, b, "ExistingGeneratorDefinition");
    Ok(f.(generatorBuilders := reg))
  }

  /** `createGenerator`: build with the registered builder and append to the active list. */
  function CreateGenerator<G, A, O>(f: Factory<G, A, O>, className: string, instance: string, params: Parameters)
    : (r: Result<Factory<G, A, O>>)
    ensures r.Err? <==> className !in f.generatorBuilders
    ensures r.Err? ==> r.error == "CreateGenerator"
    ensures r.Ok? ==> r.value.generators == f.generators + [f.generatorBuilders[className](instance, params)]
    ensures r.Ok? ==> r.value.(generators := f.generators) == f
  {
    if className !in f.generatorBuilders then Err("CreateGenerator")
    else Ok(f.(generators := f.generators + [f.generatorBuilders[className](instance, params)]))
  }

  function RegisterAction<G, A, O>(f: Factory<G, A, O>, className: string, b: Builder<A>): (r: Result<Factory<G, A, O>>)
    ensures r.Err? <==> className in f.actionBuilders
    ensures r.Err? ==> r.error == "ExistingActionDefinition"
    ensures r.Ok? ==> r.value == f.(actionBuilders := f.actionBuilders[className := b])
  {
    var reg :- Register(f.actionBuilders, className, b, "ExistingActionDefinition");
    Ok(f.(actionBuilders := reg))
  }

  function RegisterBiasingOperator<G, A, O>(f: Factory<G, A, O>, className: string, b: Builder<O>)
    : (r: Result<Factory<G, A, O>>)
    ensures r.Err? <==> className in f.operatorBuilders
    ensures r.Err? ==> r.error == "ExistingOperatorDefinition"
    ensures r.Ok? ==> r.value == f.(operatorBuilders := f.operatorBuilders[className := b])
  {
    var reg :- Register(f.operatorBuilders, className, b, "ExistingOperatorDefinition");
    Ok(f.(operatorBuilders := reg))
  }

  /** `createBiasingOperator`: as for generators. */
  function CreateBiasingOperator<G, A, O>(f: Factory<G, A, O>, className: string, instance: string, params: Parameters)
    : (r: Result<Factory<G, A, O>>)
    ensures r.Err? <==> className !in f.operatorBuilders
    ensures r.Err? ==> r.error == "CreateBiasingOperator"
    ensures r.Ok? ==> r.value.operators == f.operators + [f.operatorBuilders[className](instance, params)]
    ensures r.Ok? ==> r.value.(operators := f.operators) == f
  {
    if className !in f.operatorBuilders then Err("CreateBiasingOperator")
    else Ok(f.(operators := f.operators + [f.operatorBuilders[className](instance, params)]))
  }

  /** Creating objects of registered classes one after the other lists them in creation order. */
  lemma CreateOperatorsInOrder<G, A, O>(f: Factory<G, A, O>, c1: string, i1: string, p1: Parameters,
                                        c2: string, i2: string, p2: Parameters)
    requires c1 in f.operatorBuilders && c2 in f.operatorBuilders
    ensures CreateBiasingOperator(f, c1, i1, p1).Ok?
    ensures CreateBiasingOperator(CreateBiasingOperator(f, c1, i1, p1).value, c2, i2, p2).Ok?
    ensures CreateBiasingOperator(CreateBiasingOperator(f, c1, i1, p1).value, c2, i2, p2).value.operators
      == f.operators + [f.operatorBuilders[c1](i1, p1), f.operatorBuilders[c2](i2, p2)]
  {
  }

  /** The five dispatchers exist. */
  predicate DispatchersCreated<G, A, O>(f: Factory<G, A, O>) {
    forall k :: HasDispatcher(k) ==> k in f.dispatchers
  }

  /** The dispatcher map is only ever empty or complete. */
  predicate DispatchersWellFormed<G, A, O>(f: Factory<G, A, O>) {
    |f.dispatchers| == 0 || DispatchersCreated(f)
  }

  /** `getActions`: create five empty dispatchers on the first call only. */
  function GetActions<G, A, O>(f: Factory<G, A, O>): (r: (Factory<G, A, O>, Dispatchers<A>))
    requires DispatchersWellFormed(f)
    ensures DispatchersCreated(r.0) && r.1 == r.0.dispatchers
    ensures |f.dispatchers| > 0 ==> r.0 == f
    ensures r.0.(dispatchers := f.dispatchers) == f
  {
    if |f.dispatchers| == 0 then
      var d := map[Run := [], Event := [], Tracking := [], Stepping := [], Stacking := []];
      (f.(dispatchers := d), d)
    else (f, f.dispatchers)
  }

  /** A second `getActions` changes nothing and returns the same map as the first. */
  lemma GetActionsTwice<G, A, O>(f: Factory<G, A, O>)
    requires DispatchersWellFormed(f)
    ensures DispatchersWellFormed(GetActions(f).0)
    ensures GetActions(GetActions(f).0) == GetActions(f)
  {
    var d: Dispatchers<A> := map[Run := [], Event := [], Tracking := [], Stepping := [], Stacking := []];
    assert Run in d;
  }

  /**
   * The loop of `createAction` over the action's kinds: attach to each
   * dispatcher in turn and stop with an error at `NONE`, keeping the
   * attachments made before it.
   */
  function RegisterKinds<A>(d: Dispatchers<A>, a: A, types: seq<Kind>): (r: (Dispatchers<A>, Option<string>))
    decreases |types|
  {
    if |types| == 0 then (d, None)
    else if types[0] == NoKind then (d, Some("PluginFactory"))
    else RegisterKinds(d[types[0] := Attached(d, types[0]) + [a]], a, types[1..])
  }

  /** The loop agrees with attaching the kinds before the first `NONE`, and fails exactly when there is one. */
  lemma {:induction false} RegisterKindsIsAttach<A>(d: Dispatchers<A>, a: A, types: seq<Kind>, n: nat)
    requires n <= |types| && NoKind !in types[..n] && (n < |types| ==> types[n] == NoKind)
    ensures RegisterKinds(d, a, types).0 == AttachTypes(d, a, types[..n])
    ensures RegisterKinds(d, a, types).1.Some? <==> NoKind in types
    decreases |types|
  {
    if |types| > 0 {
      if types[0] == NoKind {
        assert n == 0;
        assert types[..0] == [];
      } else {
        assert n > 0;
        assert types[1..][..n - 1] == types[1..n];
        RegisterKindsIsAttach(d[types[0] := Attached(d, types[0]) + [a]], a, types[1..], n - 1);
        AttachFirst(d, a, types[..n]);
        assert types[..n][1..] == types[1..n];
        assert NoKind in types <==> NoKind in types[1..] by {
          assert types == [types[0]] + types[1..];
        }
      }
    } else {
      assert types[..n] == [];
    }
  }

  /** Attaching the first kind, then the rest, is attaching all of them. */
  lemma {:induction false} AttachFirst<A>(d: Dispatchers<A>, a: A, types: seq<Kind>)
    requires |types| > 0 && HasDispatcher(types[0])
    ensures AttachTypes(d[types[0] := Attached(d, types[0]) + [a]], a, types[1..]) == AttachTypes(d, a, types)
    decreases |types|
  {
    if |types| > 1 {
      var init := types[..|types| - 1];
      assert init[0] == types[0];
      assert init[1..] == types[1..][..|types[1..]| - 1];
      AttachFirst(d, a, init);
    }
  }

  /**
   * `createAction` with the dispatchers created: an unknown class is an error
   * before anything changes; otherwise the built action is attached to each
   * of its kinds and a `NONE` kind ends in an error.
   */
  function CreateAction<G, A, O>(
    f: Factory<G, A, O>, className: string, instance: string, params: Parameters, typesOf: A -> seq<Kind>)
    : (r: Result<(Factory<G, A, O>, Option<string>)>)
    requires DispatchersCreated(f)
    ensures r.Err? <==> className !in f.actionBuilders
    ensures r.Err? ==> r.error == "PluginFactory"
    ensures r.Ok? ==> r.value.0.(dispatchers := f.dispatchers) == f
  {
    if className !in f.actionBuilders then Err("PluginFactory")
    else
      var act := f.actionBuilders[className](instance, params);
      var (d, error) := RegisterKinds(f.dispatchers, act, typesOf(act));
      Ok((f.(dispatchers := d), error))
  }

  /** A created action lands in each of its kinds' dispatchers once per listing, after what was there. */
  lemma CreateActionAttaches<G, A, O>(
    f: Factory<G, A, O>, className: string, instance: string, params: Parameters, typesOf: A -> seq<Kind>, k: Kind)
    requires DispatchersCreated(f) && className in f.actionBuilders
    requires NoKind !in typesOf(f.actionBuilders[className](instance, params))
    requires HasDispatcher(k)
    ensures var act := f.actionBuilders[className](instance, params);
      var r := CreateAction(f, className, instance, params, typesOf);
      && r.Ok? && r.value.1 == None
      && Attached(r.value.0.dispatchers, k) == Attached(f.dispatchers, k) + Repeat(act, Count(typesOf(act), k))
  {
    var act := f.actionBuilders[className](instance, params);
    var types := typesOf(act);
    assert types[..|types|] == types;
    RegisterKindsIsAttach(f.dispatchers, act, types, |types|);
    AttachTypesAppends(f.dispatchers, act, types, k);
  }
}
