/**
 The reducer builder made by `generateReducer()` in index.js: each builder owns an
 action map (property key to callback) and an initial-state slot, both updated in
 place; the reducer it builds reads both afresh on every call.
 */
module GenerateReducer {
  import opened JsValues

  /** What `addAction` stores for a key: a handler of `(state, action)`, or a
      falsy value (such as `undefined`), which the reducer treats as no handler. */
  datatype Callback = Handler(run: (Value, Value) -> Value) | FalsyCallback

  /** How a call to `addAction` ends: it returns `undefined`, or it throws. */
  datatype Completion = Normal | Throw(error: JsError)

  /** The key under which `addAction` stores its callback, or the exception it
      raises instead: by the `typeof` category of the descriptor, an object's
      `type`, a function's result's `type`, a string itself; anything else is
      refused. */
  function ActionKey(action: Value): (r: Result<string>)
    ensures r == Err(InvalidActionError) <==> TypeOf(action) !in {ObjectType, FunctionType, StringType}
    ensures r == Err(TypeError) <==> action.Null? || (action.Fun? && (action.result.Undefined? || action.result.Null?))
    ensures action.Str? ==> r == Ok(action.s)
    ensures action.Obj? && "type" in action.props ==> r == Ok(ToPropertyKey(action.props["type"]))
    ensures action.Fun? && action.result.Obj? && "type" in action.result.props ==>
              r == Ok(ToPropertyKey(action.result.props["type"]))
    // a descriptor without a `type` is not refused: its key is "undefined"
    ensures action.Obj? && "type" !in action.props ==> r == Ok("undefined")
    ensures (action.Fun? && !action.result.Undefined? && !action.result.Null?
             && !(action.result.Obj? && "type" in action.result.props)) ==> r == Ok("undefined")
  {
    match TypeOf(action)
    case ObjectType =>
      (match GetType(action)
       case Ok(t) => Ok(ToPropertyKey(t))
       case Err(e) => Err(e))
    case FunctionType =>
      (match GetType(action.result)
       case Ok(t) => Ok(ToPropertyKey(t))
       case Err(e) => Err(e))
    case StringType => Ok(action.s)
    case _ => Err(InvalidActionError)
  }

  /** The key the reducer looks up for a truthy action: `action.type` as a property key. */
  function ActionTypeKey(action: Value): (k: string)
    requires Truthy(action)
    ensures action.Obj? && "type" in action.props ==> k == ToPropertyKey(action.props["type"])
    ensures !(action.Obj? && "type" in action.props) ==> k == "undefined"
  {
    ToPropertyKey(GetType(action).value)
  }

  /** Whether the action map holds a truthy callback for `action.type`. */
  predicate HasHandler(actionMap: map<string, Callback>, action: Value)
    ensures !Truthy(action) ==> !HasHandler(actionMap, action)
    ensures action.Obj? && "type" in action.props ==>
              (HasHandler(actionMap, action) <==>
                 ToPropertyKey(action.props["type"]) in actionMap && actionMap[ToPropertyKey(action.props["type"])].Handler?)
    ensures Truthy(action) && !(action.Obj? && "type" in action.props) ==>
              (HasHandler(actionMap, action) <==> "undefined" in actionMap && actionMap["undefined"].Handler?)
  {
    Truthy(action) && ActionTypeKey(action) in actionMap && actionMap[ActionTypeKey(action)].Handler?
  }

  /** The state the reducer works on: the default parameter `state = initialState`
      takes effect when the argument is `undefined`, whether omitted or passed. */
  function EffectiveState(initialState: Value, state: Value): Value
  {
    if state == Undefined then initialState else state
  }

  /** One call of the reducer against the given action map and initial state. It
      never throws, and it satisfies the dispatch, pass-through and default-state laws. */
  function Reduce(actionMap: map<string, Callback>, initialState: Value, state: Value, action: Value): (r: Value)
    // dispatch law
    ensures Truthy(action) && ActionTypeKey(action) in actionMap && actionMap[ActionTypeKey(action)].Handler? ==>
              r == actionMap[ActionTypeKey(action)].run(EffectiveState(initialState, state), action)
    // pass-through law: no action, unknown type, or a falsy callback
    ensures !Truthy(action) ==> r == EffectiveState(initialState, state)
    ensures Truthy(action) && ActionTypeKey(action) !in actionMap ==> r == EffectiveState(initialState, state)
    ensures Truthy(action) && ActionTypeKey(action) in actionMap && actionMap[ActionTypeKey(action)].FalsyCallback? ==>
              r == EffectiveState(initialState, state)
    // default-state law
    ensures state.Undefined? && !HasHandler(actionMap, action) ==> r == initialState
  {
    var s := EffectiveState(initialState, state);
    if HasHandler(actionMap, action) then
      actionMap[ActionTypeKey(action)].run(s, action)
    else
      s
  }

  /** A builder as returned by `generateReducer()`. */
  class ReducerBuilder {
    var actionMap: map<string, Callback>
    var initialState: Value

    /** `generateReducer()`: an empty action map and an undefined initial state. */
    constructor ()
      ensures actionMap == map[] && initialState == Undefined
    {
      actionMap := map[];
      initialState := Undefined;
    }

    /** `setInitialState(state)`: overwrites the initial-state slot. */
    method SetInitialState(state: Value)
      modifies this
      ensures initialState == state
      ensures actionMap == old(actionMap)
    {
      initialState := state;
    }

    /** `addAction(action, callback)`: stores `callback` under the key the
        descriptor yields, replacing any callback already there, or throws and
        changes nothing. */
    method AddAction(action: Value, callback: Callback) returns (completion: Completion)
      modifies this
      ensures initialState == old(initialState)
      ensures ActionKey(action).Ok? ==>
                completion == Normal && actionMap == old(actionMap)[ActionKey(action).value := callback]
      ensures ActionKey(action).Err? ==>
                completion == Throw(ActionKey(action).error) && actionMap == old(actionMap)
    {
      match TypeOf(action)
      case ObjectType =>
        var t := GetType(action);
        if t.Err? {
          return Throw(t.error);
        }
        actionMap := actionMap[ToPropertyKey(t.value) := callback];
        completion := Normal;
      case FunctionType =>
        var t := GetType(action.result);
        if t.Err? {
          return Throw(t.error);
        }
        actionMap := actionMap[ToPropertyKey(t.value) := callback];
        completion := Normal;
      case StringType =>
        actionMap := actionMap[action.s := callback];
        completion := Normal;
      case _ =>
        completion := Throw(InvalidActionError);
    }

    /** `buildReducer()`: a new reducer bound to this builder, not to a copy of it. */
    method BuildReducer() returns (reducer: Reducer)
      ensures fresh(reducer) && reducer.builder == this
    {
      reducer := new Reducer(this);
    }
  }

  /** The closure returned by `buildReducer()`: it keeps a reference to its builder. */
  class Reducer {
    const builder: ReducerBuilder

    constructor (builder: ReducerBuilder)
      ensures this.builder == builder
    {
      this.builder := builder;
    }

    /** `reducer(state, action)`: evaluated against the builder's registrations as
        they are at the time of the call. */
    function Apply(state: Value, action: Value): (r: Value)
      reads builder
      ensures r == Reduce(builder.actionMap, builder.initialState, state, action)
    {
      Reduce(builder.actionMap, builder.initialState, state, action)
    }

    /** `reducer()`: both arguments omitted. */
    function ApplyWithoutArguments(): (r: Value)
      reads builder
      ensures r == builder.initialState
    {
      Apply(Undefined, Undefined)
    }
  }
}
