/** The store's state stream (src/basic-rx/state.ts): the actions pushed in
    through `stateAction` are folded by the reducer, each action yielding the
    next state, until the stop signal ends the stream. */
module RxState {
  import opened Js
  import opened RxActions

  const StoreInitType: string := "basic-rx/store-init"

  /** `STORE_INIT_ACTION` */
  const StoreInit: ActionCreator := CreateAction(StoreInitType)

  /** `STORE_INIT_ACTION()`: the action the store's action log starts with. */
  function StoreInitAction(): (a: JsValue)
    ensures IsAction(a, StoreInit) && Prop(a, "type") == Str("basic-rx/store-init")
  {
    Create(StoreInit, Undefined)
  }

  type StateReducer = (JsValue, JsValue) -> JsValue

  /** The state after `actions`: a left fold of the reducer from the initial state. */
  function Fold(reducer: StateReducer, initial: JsValue, actions: seq<JsValue>): JsValue
  {
    if actions == [] then initial
    else reducer(Fold(reducer, initial, actions[..|actions| - 1]), actions[|actions| - 1])
  }

  /** What `scan(reducer, initialState)` emits for `actions`: one state per
      action and none for the seed. */
  function Scan(reducer: StateReducer, initial: JsValue, actions: seq<JsValue>): (states: seq<JsValue>)
    ensures |states| == |actions|
  {
    if actions == [] then []
    else Scan(reducer, initial, actions[..|actions| - 1]) + [Fold(reducer, initial, actions)]
  }

  /** The n-th emitted state is the fold over the first n actions. */
  lemma {:induction false} ScanFolds(reducer: StateReducer, initial: JsValue, actions: seq<JsValue>)
    ensures forall i :: 0 <= i < |actions| ==> Scan(reducer, initial, actions)[i] == Fold(reducer, initial, actions[..i + 1])
  {
    if actions != [] {
      var init := actions[..|actions| - 1];
      ScanFolds(reducer, initial, init);
      var states := Scan(reducer, initial, actions);
      var prefix := Scan(reducer, initial, init);
      assert states == prefix + [Fold(reducer, initial, actions)];
      forall i | 0 <= i < |actions| ensures states[i] == Fold(reducer, initial, actions[..i + 1]) {
        if i < |init| {
          assert states[i] == prefix[i];
          assert init[..i + 1] == actions[..i + 1];
        } else {
          assert actions[..i + 1] == actions;
        }
      }
    }
  }

  /** Each emitted state is the reducer applied to the one before it (to the
      initial state for the first). */
  lemma ScanSteps(reducer: StateReducer, initial: JsValue, actions: seq<JsValue>, i: nat)
    requires i < |actions|
    ensures var states := Scan(reducer, initial, actions);
            states[i] == reducer(if i == 0 then initial else states[i - 1], actions[i])
  {
    ScanFolds(reducer, initial, actions);
    var p := actions[..i + 1];
    assert p[..|p| - 1] == actions[..i];
    assert p[|p| - 1] == actions[i];
    assert Fold(reducer, initial, p) == reducer(Fold(reducer, initial, actions[..i]), actions[i]);
    if i == 0 {
      assert actions[..0] == [];
    }
  }

  /** The stream built by `createState`. */
  class StateStream {
    const initial: JsValue
    const reducer: StateReducer
    /** The actions pushed in through `stateAction` while the stream ran. */
    var actions: seq<JsValue>
    /** The states the stream has emitted. */
    var states: seq<JsValue>
    var stopped: bool

    ghost predicate Valid()
      reads this
    {
      states == Scan(reducer, initial, actions)
    }

    constructor(initial: JsValue, reducer: StateReducer)
      ensures Valid() && this.initial == initial && this.reducer == reducer
      ensures actions == [] && states == [] && !stopped
    {
      this.initial := initial;
      this.reducer := reducer;
      actions := [];
      states := [];
      stopped := false;
    }

    /** `stateAction`: until the stop signal, reduces the action and emits the
        next state. */
    method StateAction(action: JsValue)
      requires Valid()
      modifies this
      ensures Valid() && stopped == old(stopped)
      ensures old(stopped) ==> actions == old(actions) && states == old(states)
      ensures !old(stopped) ==> actions == old(actions) + [action]
      ensures !old(stopped) ==> states == old(states) + [reducer(Fold(reducer, initial, old(actions)), action)]
    {
      if stopped {
        return;
      }
      var next := reducer(Fold(reducer, initial, actions), action);
      var grown := actions + [action];
      assert grown[..|grown| - 1] == actions;
      actions := grown;
      states := states + [next];
    }

    /** `stopState$.next(true)` */
    method Stop()
      modifies this`stopped
      ensures stopped
    {
      stopped := true;
    }

    /** The state a late subscriber is replayed (`shareReplay(1)`): the last
        one emitted, which is the fold over every action so far. */
    function Current(): (r: Option<JsValue>)
      requires Valid()
      reads this
      ensures r.None? <==> actions == []
      ensures r.Some? ==> r.value == Fold(reducer, initial, actions)
    {
      if states == [] then None
      else
        ScanFolds(reducer, initial, actions);
        assert actions[..|actions|] == actions;
        Some(states[|states| - 1])
    }
  }
}
