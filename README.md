# redux-reducer-builder, modelled in Dafny

`generateReducer()` (index.js) makes a reducer builder. The builder keeps two
closure variables: an action map from action keys to callbacks, and an
initial-state slot. It offers three operations:

- `setInitialState(state)` overwrites the slot.
- `addAction(descriptor, callback)` stores `callback` under the key the
  descriptor yields. An object gives its `type`. A zero-argument function gives
  the `type` of its result. A string is its own key. Anything else throws.
  The last registration of a key wins.
- `buildReducer()` returns a reducer `(state = initialState, action) => …`. It
  calls the handler registered for `action.type` when the action is truthy and
  that handler is truthy. Otherwise it returns the state it was given.

The reducer reads the action map and the initial state live on every call, so
it sees registrations made after it was built.

Files:

- `js_values.dfy` (module `JsValues`): the JavaScript values involved: `typeof`,
  truthiness, reading `type`, and how a property value becomes an object
  key. A missing `type` becomes the key `"undefined"`; a number becomes its
  decimal numeral.
- `generate_reducer.dfy` (module `GenerateReducer`): the key extraction
  `ActionKey` and the reducer's expression `Reduce` as functions. Also the
  builder as class `ReducerBuilder`, whose methods update `actionMap` and
  `initialState` in place, and the reducer as class `Reducer`. A `Reducer` keeps
  a reference to its builder, and its `Apply` function `reads` that builder.
  This is how late binding and per-builder isolation appear in the frames.
- `call_sequences.dfy` (module `CallSequences`): the builder's slots as a value,
  and what any sequence of calls does to them. It proves that the last
  registration of a key wins and that the last initial state wins.
- `scenarios.dfy` (module `Scenarios`): client programs that follow the cases of
  test/test.js. Each states what it observes, and each is proved from the class
  contracts alone.

Where the code and its tests disagree, the model follows the code:

- A descriptor without a `type` is not rejected. This covers both `{}` and a
  function that returns `{}`. The tests (test/test.js:53-62) expect a throw. The
  code stores the callback under the key `"undefined"` instead (index.js:12,
  index.js:15). `ActionKey` returns `Ok("undefined")` for both.
  `Scenarios.MissingTypeIsAccepted` shows that both calls return normally, and
  that a later truthy action without a `type`, such as the number 5, is then
  sent to that callback.
- index.js:39 exports a builder that is already made, but the tests call the
  export as a factory (test/test.js:3, test/test.js:120-121). The model is the
  factory: `new ReducerBuilder()` is one `generateReducer()` call.

## Model

| member | source | states |
|---|---|---|
| JsValues.TypeOf | index.js:10 | `typeof` gives "object" exactly for objects and `null`, "function" exactly for functions, "string" exactly for strings |
| JsValues.Truthy | index.js:27 | a value is falsy exactly when it is `undefined`, `null`, `false`, `0` or `""` |
| JsValues.GetType | index.js:12 | reading `.type` throws a TypeError exactly on `undefined` and `null`; an object without an own `type`, a primitive and a function read as `undefined` |
| JsValues.ToPropertyKey | index.js:12 | a string indexes itself; `undefined` indexes the key "undefined" |
| JsValues.NatToDecimal | index.js:12 | a non-negative number's key is a string of decimal digits with no leading zero whose value is that number |
| JsValues.IntToDecimal | index.js:12 | a number's key starts with a minus sign exactly when the number is negative; after the sign come only decimal digits, at least one and with no leading zero unless the number is 0, and they denote its absolute value, so the key is `String(n)` |
| JsValues.NumericKeysDistinct | index.js:12 | two numeric types share a registry key exactly when they are equal |
| GenerateReducer.ActionKey | index.js:9-22 | a descriptor is refused with the builder's Error exactly when its `typeof` is not object, function or string; a TypeError is raised exactly for `null` or a function returning `null`/`undefined`; string, object and function descriptors with the same `type` give the same key; an object or a function result without a `type` gives the key "undefined" instead of a throw |
| GenerateReducer.ActionTypeKey | index.js:27 | the reducer looks up an object action's `type`, and "undefined" for any other truthy action |
| GenerateReducer.HasHandler | index.js:27 | the reducer's guard holds exactly when the action is truthy and a truthy callback is stored under its `type` as a key, or under "undefined" when it has no `type` |
| GenerateReducer.Reduce | index.js:26-33 | dispatch law: a truthy action with a registered truthy handler gives that handler's result on the state and action; pass-through law: a falsy action, an unknown type or a falsy callback gives back the state itself; default-state law: with no state and no handler the initial state comes back |
| GenerateReducer.ReducerBuilder.constructor | index.js:1-3 | a new builder has an empty action map and an undefined initial state |
| GenerateReducer.ReducerBuilder.SetInitialState | index.js:5-7 | the slot becomes the given state; the action map is unchanged |
| GenerateReducer.ReducerBuilder.AddAction | index.js:9-23 | on a valid descriptor it returns normally and the map becomes the old map with the key bound to the callback, so every other key is unchanged; on an invalid one it throws that exception and changes nothing; the initial state is never touched |
| GenerateReducer.ReducerBuilder.BuildReducer | index.js:25-34 | a new reducer that refers to this very builder, not a copy |
| GenerateReducer.Reducer.constructor | index.js:26 | the closure refers to the builder it was made by |
| GenerateReducer.Reducer.Apply | index.js:26-33 | a reducer call reads only its builder (`reads builder`), and reads its action map and initial state as they are at the time of the call, so `Reduce`'s laws apply to the live fields |
| GenerateReducer.Reducer.ApplyWithoutArguments | index.js:26 | `reducer()` returns the builder's current initial state |
| CallSequences.Step | index.js:5-23 | `setInitialState` replaces the slot and keeps the map; a successful `addAction` adds its key, binds it to the callback and keeps every other key; a throwing one changes nothing |
| CallSequences.Replay | index.js:2-23 | after any sequence of calls the map's keys are the earlier keys plus the key of every `addAction` that succeeded |
| CallSequences.LastRegistrationWins | index.js:12-18 | after any sequence of calls, a key holds the callback of the last `addAction` that registered it |
| CallSequences.UnregisteredKeyUnchanged | index.js:9-23 | a key that no call registers keeps its earlier presence and callback |
| CallSequences.LastInitialStateWins | index.js:5-7 | after any sequence of calls, the initial state is the one given to the last `setInitialState` |
| CallSequences.NoSetInitialStateKeepsInitialState | index.js:3 | without `setInitialState` the initial state stays what it was (`undefined` for a new builder) |
| CallSequences.ReplayedDispatch | index.js:27-29 | after any sequence of calls, an action whose type was last registered with a handler gets that handler's result |
| CallSequences.ReplayedPassThrough | index.js:27-32 | after calls that never register the action's type, the reducer returns the state it was given, or the current initial state if given none |
| Scenarios.RegistrationReturnsNormally | test/test.js:29-37 | `setInitialState` and `addAction({type})` return normally; the map then holds exactly that type and the slot holds that state |
| Scenarios.NumberDescriptorThrows | test/test.js:39-41 | `addAction(5, fn)` throws the builder's Error and registers nothing |
| Scenarios.NullDescriptorThrows | index.js:11-12 | `addAction(null, fn)` throws a TypeError, because `typeof null` is "object", and registers nothing |
| Scenarios.MissingTypeIsAccepted | test/test.js:53-62 | against the tests' expectation, `{}` and a function returning `{}` are accepted under the key "undefined", and the action 5 is then dispatched to that callback |
| Scenarios.DispatchAndPassThrough | test/test.js:67-115 | a known type gets the handler's result, an unknown type and an `undefined` action get the given state, and `reducer()` gets the initial state |
| Scenarios.NoInitialState | index.js:3 | without `setInitialState`, `reducer()` returns `undefined` |
| Scenarios.DescriptorFormsAgree | index.js:11-18 | registering under `"X"`, `{type: "X"}` and `() => ({type: "X"})` gives reducers that agree on every state and action |
| Scenarios.ReRegistrationReplaces | index.js:12-18 | a second registration of a key replaces the first handler |
| Scenarios.LateBinding | index.js:26-28 | a reducer built before `addAction` and `setInitialState` sees both on its next call |
| Scenarios.SeparateBuilders | test/test.js:126-144 | two builders keep their own initial states, and a registration on one is invisible to the other's reducer, for every state passed to it |
| Scenarios.PerformCall | index.js:5-23 | a `setInitialState` or `addAction` call on a builder changes its two slots exactly as the value-level `Step` of the call-sequence lemmas does, and throws exactly when the descriptor is refused |
| Scenarios.PerformCalls | index.js:5-23 | any sequence of calls made on a builder changes its slots exactly as `Replay` does, and leaves the reducers of other builders unchanged |
| Scenarios.Isolation | index.js:1-3 | any sequence of calls on one builder leaves every reducer of any other builder unchanged, while that builder's own reducer sees their combined effect |

## Left out

- Handlers are total Dafny functions of `(state, action)`. A handler that throws, has side effects, or uses `this` is not modelled.
- A callback is either a function or a falsy value. A truthy callback that is not a function would make the reducer throw a TypeError; such callbacks are not modelled.
- Calling a function descriptor has no effect beyond returning its result. Side effects and exceptions inside it are not modelled.
- The action map is a Dafny `map<string, Callback>` with no prototype. Names inherited from `Object.prototype` such as `toString` are not found unless registered, and assigning to `__proto__` is not modelled.
- Only integer numbers are modelled. Floating point, `NaN` (which is falsy) and `-0` are not. Symbols, BigInts and arrays are not modelled either.
- `Obj` has only own data properties. An inherited or getter `type` is not modelled. This covers, for instance, a class instance used as a descriptor or as an action.
- `Fun` has no properties. A function with an own `type`, used as a descriptor result or as an action (index.js:27), is not modelled.
- IntToDecimal: gives the plain decimal numeral of any integer. JavaScript writes numbers of magnitude 1e21 or more in exponent form ("1e+21"), and integers beyond 2^53 are not exact JavaScript numbers. Neither is modelled.
- An object's key is `"[object Object]"`, as for a plain object. A custom `toString` or `Symbol.toPrimitive` is not modelled.
- "Returns the very same state" is Dafny value equality. JavaScript reference identity is not modelled separately.
- The module-export wiring (index.js:39) and the shape checks of the returned object (test/test.js:6-26) are packaging, not logic.
- There is no I/O, concurrency or clock in the source.
