/**
 A builder's slots as a value, and the effect of a whole sequence of
 `setInitialState` and `addAction` calls on them. A call that throws leaves
 the slots as they were (the exception escapes to the caller before the
 assignment). This is where "the last registration wins" and "the last
 initial state wins" are stated over any number of calls.
 */
module CallSequences {
  import opened JsValues
  import opened GenerateReducer

  /** A call a client makes on a builder. */
  datatype Call =
    | SetInitialStateCall(state: Value)
    | AddActionCall(action: Value, callback: Callback)

  /** The two closure variables of `generateReducer`. */
  datatype Slots = Slots(actionMap: map<string, Callback>, initialState: Value)

  /** The slots of a builder fresh from `generateReducer()`. */
  const Fresh := Slots(map[], Undefined)

  /** The slots after one call, as the builder's methods leave them. */
  function Step(s: Slots, c: Call): (r: Slots)
    ensures c.SetInitialStateCall? ==> r.initialState == c.state && r.actionMap == s.actionMap
    ensures c.AddActionCall? ==> r.initialState == s.initialState
    ensures c.AddActionCall? && ActionKey(c.action).Err? ==> r == s
    ensures c.AddActionCall? && ActionKey(c.action).Ok? ==>
              var key := ActionKey(c.action).value;
              && r.actionMap.Keys == s.actionMap.Keys + {key}
              && r.actionMap[key] == c.callback
              && forall k :: k in s.actionMap && k != key ==> r.actionMap[k] == s.actionMap[k]
  {
    match c
    case SetInitialStateCall(state) => s.(initialState := state)
    case AddActionCall(action, callback) =>
      match ActionKey(action)
      case Ok(key) => s.(actionMap := s.actionMap[key := callback])
      case Err(_) => s
  }

  /** The slots after the calls, in order, on a builder with slots `s`. The keys
      are those `s` had and those of every `addAction` that succeeded. */
  function Replay(s: Slots, calls: seq<Call>): (r: Slots)
    ensures r.actionMap.Keys == s.actionMap.Keys + RegisteredKeys(calls)
  {
    if calls == [] then
      s
    else
      var n := |calls| - 1;
      RegisteredKeysSnoc(calls);
      Step(Replay(s, calls[..n]), calls[n])
  }

  /** Whether the call is an `addAction` that succeeds. */
  predicate Succeeds(c: Call)
  {
    c.AddActionCall? && ActionKey(c.action).Ok?
  }

  /** The keys the successful `addAction` calls among `calls` register. */
  function RegisteredKeys(calls: seq<Call>): set<string>
  {
    set i | 0 <= i < |calls| && Succeeds(calls[i]) :: ActionKey(calls[i].action).value
  }

  /** The registered keys of a sequence are those of all but its last call and those of the last. */
  lemma RegisteredKeysSnoc(calls: seq<Call>)
    requires calls != []
    ensures var n := |calls| - 1;
            RegisteredKeys(calls)
              == RegisteredKeys(calls[..n]) + (if Succeeds(calls[n]) then {ActionKey(calls[n].action).value} else {})
  {
    var n := |calls| - 1;
    var prefix := calls[..n];
    forall k | k in RegisteredKeys(prefix) ensures k in RegisteredKeys(calls) {
      var i :| 0 <= i < n && Succeeds(prefix[i]) && ActionKey(prefix[i].action).value == k;
      assert calls[i] == prefix[i];
    }
    forall k | k in RegisteredKeys(calls) && k !in RegisteredKeys(prefix) ensures Succeeds(calls[n]) && k == ActionKey(calls[n].action).value {
      var i :| 0 <= i < |calls| && Succeeds(calls[i]) && ActionKey(calls[i].action).value == k;
    }
  }

  /** Whether the call is an `addAction` that succeeds with key `key`. */
  predicate RegistersUnder(c: Call, key: string)
  {
    c.AddActionCall? && ActionKey(c.action) == Ok(key)
  }

  /** The callback found under a key is the one of the last call that registered
      that key; earlier registrations and the other calls do not matter. */
  lemma {:induction false} LastRegistrationWins(s: Slots, calls: seq<Call>, key: string, i: nat)
    requires i < |calls| && RegistersUnder(calls[i], key)
    requires forall j :: i < j < |calls| ==> !RegistersUnder(calls[j], key)
    ensures key in Replay(s, calls).actionMap
    ensures Replay(s, calls).actionMap[key] == calls[i].callback
  {
    var n := |calls| - 1;
    if i < n {
      var prefix := calls[..n];
      assert forall j :: i < j < |prefix| ==> prefix[j] == calls[j];
      LastRegistrationWins(s, prefix, key, i);
      assert !RegistersUnder(calls[n], key);
    }
  }

  /** A key no call registers keeps whatever the builder held for it before. */
  lemma {:induction false} UnregisteredKeyUnchanged(s: Slots, calls: seq<Call>, key: string)
    requires forall j :: 0 <= j < |calls| ==> !RegistersUnder(calls[j], key)
    ensures key in Replay(s, calls).actionMap <==> key in s.actionMap
    ensures key in s.actionMap ==> Replay(s, calls).actionMap[key] == s.actionMap[key]
  {
    if calls != [] {
      var n := |calls| - 1;
      UnregisteredKeyUnchanged(s, calls[..n], key);
      assert !RegistersUnder(calls[n], key);
    }
  }

  /** The initial state is the one passed to the last `setInitialState` call. */
  lemma {:induction false} LastInitialStateWins(s: Slots, calls: seq<Call>, i: nat)
    requires i < |calls| && calls[i].SetInitialStateCall?
    requires forall j :: i < j < |calls| ==> !calls[j].SetInitialStateCall?
    ensures Replay(s, calls).initialState == calls[i].state
  {
    var n := |calls| - 1;
    if i < n {
      var prefix := calls[..n];
      assert forall j :: i < j < |prefix| ==> prefix[j] == calls[j];
      LastInitialStateWins(s, prefix, i);
    }
  }

  /** Without a `setInitialState` call the initial state stays as it was; for a
      builder fresh from `generateReducer()` it is `undefined`. */
  lemma {:induction false} NoSetInitialStateKeepsInitialState(s: Slots, calls: seq<Call>)
    requires forall j :: 0 <= j < |calls| ==> !calls[j].SetInitialStateCall?
    ensures Replay(s, calls).initialState == s.initialState
  {
    if calls != [] {
      NoSetInitialStateKeepsInitialState(s, calls[..|calls| - 1]);
    }
  }

  /** After any calls, an action whose type was last registered with a handler is
      dispatched to that handler, whenever the reducer is called. */
  lemma ReplayedDispatch(calls: seq<Call>, i: nat, state: Value, action: Value)
    requires Truthy(action)
    requires i < |calls| && RegistersUnder(calls[i], ActionTypeKey(action)) && calls[i].callback.Handler?
    requires forall j :: i < j < |calls| ==> !RegistersUnder(calls[j], ActionTypeKey(action))
    ensures var s := Replay(Fresh, calls);
            Reduce(s.actionMap, s.initialState, state, action)
              == calls[i].callback.run(EffectiveState(s.initialState, state), action)
  {
    LastRegistrationWins(Fresh, calls, ActionTypeKey(action), i);
  }

  /** After calls none of which registers the action's type, the reducer returns
      the state it is given, or the last initial state when it is given none. */
  lemma ReplayedPassThrough(calls: seq<Call>, state: Value, action: Value)
    requires Truthy(action)
    requires forall j :: 0 <= j < |calls| ==> !RegistersUnder(calls[j], ActionTypeKey(action))
    ensures var s := Replay(Fresh, calls);
            Reduce(s.actionMap, s.initialState, state, action) == EffectiveState(s.initialState, state)
  {
    UnregisteredKeyUnchanged(Fresh, calls, ActionTypeKey(action));
  }
}
