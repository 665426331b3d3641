/**
 Client programs that drive builders through their methods, as the test suite in
 test/test.js does, and state what each one observes. Each proves its outcome from
 the contracts of `ReducerBuilder` and `Reducer` alone, including their frames:
 a reducer sees later changes to its own builder and none to any other.
 */
module Scenarios {
  import opened JsValues
  import opened GenerateReducer
  import opened CallSequences

  /** `{type: key}` */
  function ActionOf(key: string): (a: Value)
    ensures Truthy(a) && ActionTypeKey(a) == key
  {
    Obj(map["type" := Str(key)])
  }

  /** `setInitialState` returns nothing and leaves the handlers; `addAction` with an
      object descriptor returns normally and stores the callback under its type. */
  method RegistrationReturnsNormally(state: Value, key: string, callback: Callback)
    returns (completion: Completion, keys: set<string>, initial: Value)
    ensures completion == Normal && keys == {key} && initial == state
  {
    var builder := new ReducerBuilder();
    builder.SetInitialState(state);
    completion := builder.AddAction(ActionOf(key), callback);
    keys, initial := builder.actionMap.Keys, builder.initialState;
  }

  /** `addAction(5, fn)` throws and registers nothing. */
  method NumberDescriptorThrows(n: int, callback: Callback) returns (completion: Completion, keys: set<string>)
    ensures completion == Throw(InvalidActionError) && keys == {}
  {
    var builder := new ReducerBuilder();
    completion := builder.AddAction(Num(n), callback);
    keys := builder.actionMap.Keys;
  }

  /** A `null` descriptor is of category "object", so reading its `type` throws a
      TypeError, and nothing is registered. */
  method NullDescriptorThrows(callback: Callback) returns (completion: Completion, keys: set<string>)
    ensures completion == Throw(TypeError) && keys == {}
  {
    var builder := new ReducerBuilder();
    completion := builder.AddAction(Null, callback);
    keys := builder.actionMap.Keys;
  }

  /** A descriptor without a `type`, an object `{}` or a function returning `{}`, is
      accepted: its callback goes under the key "undefined", where every truthy
      action without a `type` (the number 5, say) then finds it. */
  method MissingTypeIsAccepted(source: string, run: (Value, Value) -> Value, state: Value)
    returns (byObject: Completion, byFunction: Completion, keys: set<string>, dispatched: Value)
    ensures byObject == Normal && byFunction == Normal
    ensures keys == {"undefined"}
    ensures dispatched == run(EffectiveState(Undefined, state), Num(5))
  {
    var builder := new ReducerBuilder();
    byObject := builder.AddAction(Obj(map[]), Handler(run));
    byFunction := builder.AddAction(Fun(source, Obj(map[])), Handler(run));
    keys := builder.actionMap.Keys;
    var reducer := builder.BuildReducer();
    dispatched := reducer.Apply(state, Num(5));
  }

  /** A registered type is dispatched to its handler; an unregistered one and an
      `undefined` action return the given state itself; `reducer()` returns the
      initial state. */
  method DispatchAndPassThrough(initial: Value, key: string, other: string, run: (Value, Value) -> Value)
    returns (known: Value, unknown: Value, noAction: Value, noArguments: Value)
    requires other != key
    ensures known == run(initial, ActionOf(key))
    ensures unknown == initial && noAction == initial && noArguments == initial
  {
    var builder := new ReducerBuilder();
    builder.SetInitialState(initial);
    var _ := builder.AddAction(Str(key), Handler(run));
    var reducer := builder.BuildReducer();
    known := reducer.Apply(initial, ActionOf(key));
    unknown := reducer.Apply(initial, ActionOf(other));
    noAction := reducer.Apply(initial, Undefined);
    noArguments := reducer.ApplyWithoutArguments();
  }

  /** Without `setInitialState`, `reducer()` returns `undefined`. */
  method NoInitialState(key: string, callback: Callback) returns (r: Value)
    ensures r == Undefined
  {
    var builder := new ReducerBuilder();
    var _ := builder.AddAction(Str(key), callback);
    var reducer := builder.BuildReducer();
    r := reducer.ApplyWithoutArguments();
  }

  /** A string, an object and a function descriptor naming the same type register
      the same handler: the three reducers agree on every call. */
  method DescriptorFormsAgree(key: string, source: string, run: (Value, Value) -> Value, state: Value, action: Value)
    returns (byString: Value, byObject: Value, byFunction: Value)
    ensures byString == byObject == byFunction
    ensures byString == Reduce(map[key := Handler(run)], Undefined, state, action)
  {
    var b1 := new ReducerBuilder();
    var b2 := new ReducerBuilder();
    var b3 := new ReducerBuilder();
    var _ := b1.AddAction(Str(key), Handler(run));
    var _ := b2.AddAction(ActionOf(key), Handler(run));
    var _ := b3.AddAction(Fun(source, ActionOf(key)), Handler(run));
    var r1 := b1.BuildReducer();
    var r2 := b2.BuildReducer();
    var r3 := b3.BuildReducer();
    byString, byObject, byFunction := r1.Apply(state, action), r2.Apply(state, action), r3.Apply(state, action);
  }

  /** Registering a key again replaces the earlier handler. */
  method ReRegistrationReplaces(key: string, first: (Value, Value) -> Value, second: (Value, Value) -> Value, state: Value)
    returns (r: Value)
    ensures r == second(EffectiveState(Undefined, state), ActionOf(key))
  {
    var builder := new ReducerBuilder();
    var _ := builder.AddAction(Str(key), Handler(first));
    var _ := builder.AddAction(ActionOf(key), Handler(second));
    var reducer := builder.BuildReducer();
    r := reducer.Apply(state, ActionOf(key));
  }

  /** A reducer built before `addAction` and `setInitialState` sees both. */
  method LateBinding(key: string, run: (Value, Value) -> Value, initial: Value, state: Value)
    returns (before: Value, after: Value, defaultAfter: Value)
    ensures before == state
    ensures after == run(EffectiveState(initial, state), ActionOf(key))
    ensures defaultAfter == initial
  {
    var builder := new ReducerBuilder();
    var reducer := builder.BuildReducer();
    before := reducer.Apply(state, ActionOf(key));
    var _ := builder.AddAction(Str(key), Handler(run));
    builder.SetInitialState(initial);
    after := reducer.Apply(state, ActionOf(key));
    defaultAfter := reducer.ApplyWithoutArguments();
  }

  /** Two builders from separate `generateReducer()` calls keep separate initial
      states, and a registration on one is invisible to the other's reducer. */
  method SeparateBuilders(stateOne: Value, stateTwo: Value, key: string, run: (Value, Value) -> Value, state: Value)
    returns (res1: Value, res2: Value, otherDispatch: Value)
    ensures res1 == stateOne && res2 == stateTwo
    ensures otherDispatch == EffectiveState(stateTwo, state)
  {
    var firstBuilder := new ReducerBuilder();
    var secondBuilder := new ReducerBuilder();
    firstBuilder.SetInitialState(stateOne);
    secondBuilder.SetInitialState(stateTwo);
    var r1 := firstBuilder.BuildReducer();
    var r2 := secondBuilder.BuildReducer();
    var _ := firstBuilder.AddAction(Str(key), Handler(run));
    res1 := r1.ApplyWithoutArguments();
    res2 := r2.ApplyWithoutArguments();
    otherDispatch := r2.Apply(state, ActionOf(key));
  }

  /** Making a call on a builder changes its slots exactly as `Step` says, so the
      lemmas about `Replay` hold of real builders driven through their methods. */
  method PerformCall(builder: ReducerBuilder, call: Call) returns (completion: Completion)
    modifies builder
    ensures Slots(builder.actionMap, builder.initialState)
              == Step(old(Slots(builder.actionMap, builder.initialState)), call)
    ensures completion.Throw? <==> call.AddActionCall? && ActionKey(call.action).Err?
  {
    match call
    case SetInitialStateCall(state) =>
      builder.SetInitialState(state);
      completion := Normal;
    case AddActionCall(action, callback) =>
      completion := builder.AddAction(action, callback);
  }

  /** Making a sequence of calls on a builder, one after another, changes its slots
      exactly as `Replay` says; the reducers of every other builder see no change. */
  method PerformCalls(builder: ReducerBuilder, calls: seq<Call>, other: Reducer, state: Value, probe: Value)
    requires other.builder != builder
    modifies builder
    ensures Slots(builder.actionMap, builder.initialState)
              == Replay(old(Slots(builder.actionMap, builder.initialState)), calls)
    ensures other.Apply(state, probe) == old(other.Apply(state, probe))
  {
    ghost var start := Slots(builder.actionMap, builder.initialState);
    var i := 0;
    while i < |calls|
      invariant 0 <= i <= |calls|
      invariant Slots(builder.actionMap, builder.initialState) == Replay(start, calls[..i])
    {
      var _ := PerformCall(builder, calls[i]);
      assert calls[..i + 1][..i] == calls[..i];
      i := i + 1;
    }
    assert calls[..i] == calls;
  }

  /** Calls on one builder leave every reducer of any other builder unchanged,
      while a reducer of that builder sees their combined effect. */
  method Isolation(first: ReducerBuilder, own: Reducer, other: Reducer, calls: seq<Call>, state: Value, probe: Value)
    requires own.builder == first && other.builder != first
    modifies first
    ensures other.Apply(state, probe) == old(other.Apply(state, probe))
    ensures var s := Replay(old(Slots(first.actionMap, first.initialState)), calls);
            own.Apply(state, probe) == Reduce(s.actionMap, s.initialState, state, probe)
  {
    PerformCalls(first, calls, other, state, probe);
  }
}
