/** Reducers of the flux-style store (src/basic-rx/reducer.ts): the base
    reducer that overlays a partial change onto a state object, and the root
    reducer that runs one branch reducer per top-level key of the state.

    JavaScript compares objects by identity (`===`); the model compares
    values. A branch reducer that returns its input unchanged is "unchanged"
    in both; one that rebuilds an equal object counts as a change in
    JavaScript and not here, which alters object identity but never a value. */
module RxReducer {
  import opened Js

  /** A branch reducer. Dafny functions are pure, which the root reducer
      relies on: it calls each branch reducer twice. */
  type Reducer = (JsValue, JsValue) -> JsValue

  /** The own enumerable properties `{...v}` copies (primitives have none). */
  function OwnProps(v: JsValue): Assoc<JsValue>
  {
    if v.Obj? then v.fields else []
  }

  predicate Nullish(v: JsValue)
  {
    v == Undefined || v == Null
  }

  /** `BaseStateReducer(state, change)` */
  function BaseStateReducer(state: JsValue, change: JsValue): (r: JsValue)
    ensures Nullish(change) || state == change ==> r == state
  {
    if Nullish(change) || state == change then state
    else Obj(Spread(OwnProps(state), OwnProps(change)))
  }

  /** Otherwise the result has every property of the state, and the
      properties of the change override. */
  lemma BaseStateReducerLookup(state: JsValue, change: JsValue, k: string)
    requires state.Obj? && change.Obj? && UniqueKeys(change.fields)
    ensures var r := BaseStateReducer(state, change);
            && r.Obj?
            && Lookup(r.fields, k) == if k in Keys(change.fields) then Lookup(change.fields, k) else Lookup(state.fields, k)
  {
    if state != change {
      LookupSpread(state.fields, change.fields, k);
    }
  }

  /** The identity shortcut is only a shortcut: spreading an object onto
      itself gives back the same object. */
  lemma IdentityShortcutAgrees(state: JsValue)
    requires state.Obj? && UniqueKeys(state.fields)
    ensures Obj(Spread(OwnProps(state), OwnProps(state))) == BaseStateReducer(state, state)
  {
    SpreadSelf(state.fields);
  }

  /** `state[key]` */
  function Sub(state: Assoc<JsValue>, key: string): JsValue
  {
    match Lookup(state, key)
    case Some(v) => v
    case None => Undefined
  }

  /** The root reducer's `reduce` over `keys`, starting from the state itself:
      a key whose branch reducer changes its sub-state is assigned the branch
      reducer's result (computed a second time) on a copy. */
  function RootFold(reducers: map<string, Reducer>, state: Assoc<JsValue>, action: JsValue, keys: seq<string>): Assoc<JsValue>
    requires forall k :: k in keys ==> k in reducers
  {
    if keys == [] then state
    else
      var acc := RootFold(reducers, state, action, keys[..|keys| - 1]);
      var key := keys[|keys| - 1];
      var subState := reducers[key](Sub(state, key), action);
      if subState != Sub(state, key) then Put(acc, key, reducers[key](Sub(state, key), action)) else acc
  }

  /** `createRootReducer(reducerMap)` applied to a state object and an action;
      the map has a reducer for every key of the state, as its type demands. */
  function RootReducer(reducers: map<string, Reducer>, state: JsValue, action: JsValue): (r: JsValue)
    requires state.Obj? && forall k :: k in Keys(state.fields) ==> k in reducers
    ensures r.Obj? && Keys(r.fields) == Keys(state.fields)
  {
    if Nullish(action) then state
    else
      RootFoldKeys(reducers, state.fields, action, Keys(state.fields));
      Obj(RootFold(reducers, state.fields, action, Keys(state.fields)))
  }

  lemma {:induction false} RootFoldLookup(reducers: map<string, Reducer>, state: Assoc<JsValue>, action: JsValue, keys: seq<string>, k: string)
    requires forall k :: k in keys ==> k in reducers
    requires forall k :: k in keys ==> k in Keys(state)
    ensures Lookup(RootFold(reducers, state, action, keys), k)
         == if k in keys then Some(reducers[k](Sub(state, k), action)) else Lookup(state, k)
  {
    if keys != [] {
      var init, key := keys[..|keys| - 1], keys[|keys| - 1];
      assert forall k :: k in init ==> k in keys;
      RootFoldLookup(reducers, state, action, init, k);
      var acc := RootFold(reducers, state, action, init);
      var subState := reducers[key](Sub(state, key), action);
      if subState != Sub(state, key) {
        LookupPut(acc, key, subState, k);
      } else if k == key && k !in init {
        assert Lookup(state, k) == Some(Sub(state, k));
      }
      assert k in keys <==> k in init || k == key;
    }
  }

  lemma {:induction false} RootFoldKeys(reducers: map<string, Reducer>, state: Assoc<JsValue>, action: JsValue, keys: seq<string>)
    requires forall k :: k in keys ==> k in reducers
    requires forall k :: k in keys ==> k in Keys(state)
    ensures Keys(RootFold(reducers, state, action, keys)) == Keys(state)
  {
    if keys != [] {
      var init, key := keys[..|keys| - 1], keys[|keys| - 1];
      assert forall k :: k in init ==> k in keys;
      RootFoldKeys(reducers, state, action, init);
      var acc := RootFold(reducers, state, action, init);
      var subState := reducers[key](Sub(state, key), action);
      if subState != Sub(state, key) {
        KeysPut(acc, key, subState);
      }
    }
  }

  /** Every top-level key keeps its place and holds its branch reducer's
      result: changed branches get the new value, unchanged ones keep theirs. */
  lemma RootReducerBranches(reducers: map<string, Reducer>, state: JsValue, action: JsValue, k: string)
    requires state.Obj? && forall k :: k in Keys(state.fields) ==> k in reducers
    requires !Nullish(action)
    ensures var r := RootReducer(reducers, state, action);
            && r.Obj?
            && Keys(r.fields) == Keys(state.fields)
            && Lookup(r.fields, k) == if k in Keys(state.fields) then Some(reducers[k](Sub(state.fields, k), action)) else None
  {
    RootFoldLookup(reducers, state.fields, action, Keys(state.fields), k);
    RootFoldKeys(reducers, state.fields, action, Keys(state.fields));
  }

  lemma {:induction false} RootFoldUnchanged(reducers: map<string, Reducer>, state: Assoc<JsValue>, action: JsValue, keys: seq<string>)
    requires forall k :: k in keys ==> k in reducers
    requires forall k :: k in keys ==> reducers[k](Sub(state, k), action) == Sub(state, k)
    ensures RootFold(reducers, state, action, keys) == state
  {
    if keys != [] {
      var init := keys[..|keys| - 1];
      assert forall k :: k in init ==> k in keys;
      RootFoldUnchanged(reducers, state, action, init);
    }
  }

  /** When no branch reducer changes its sub-state, the very same state comes
      back, and so does it for a missing action. */
  lemma RootReducerKeepsState(reducers: map<string, Reducer>, state: JsValue, action: JsValue)
    requires state.Obj? && forall k :: k in Keys(state.fields) ==> k in reducers
    requires Nullish(action) || forall k :: k in Keys(state.fields) ==> reducers[k](Sub(state.fields, k), action) == Sub(state.fields, k)
    ensures RootReducer(reducers, state, action) == state
  {
    if !Nullish(action) {
      RootFoldUnchanged(reducers, state.fields, action, Keys(state.fields));
    }
  }
}
