/** The store's side effects (src/basic-rx/sideEffect.ts): an action log that
    starts with the store-init action, and an append-only list of effects,
    each turning the actions it sees into further actions.

    An effect is modelled per action: for each action it sees it either emits
    a run of values, or emits some values and then fails. A failing effect is
    caught, completes, and sees no further actions. */
module RxSideEffect {
  import opened Js
  import opened RxState

  datatype EffectOutput = Emit(values: seq<JsValue>) | Fail(before: seq<JsValue>)

  type EffectFn = JsValue -> EffectOutput

  /** A registered effect; `dispatch` is false for effects whose output is
      discarded (`ignoreElements`). */
  datatype Effect = Effect(run: EffectFn, dispatch: bool)

  /** The values an effect passes on for one action. */
  function Outputs(e: Effect, action: JsValue): (out: seq<JsValue>)
    ensures !e.dispatch ==> out == []
    ensures e.dispatch && e.run(action).Emit? ==> out == e.run(action).values
    ensures e.dispatch && e.run(action).Fail? ==> out == e.run(action).before
  {
    if !e.dispatch then []
    else match e.run(action)
      case Emit(values) => values
      case Fail(before) => before
  }

  /** The merged output of the subscribed effects for one action, in
      subscription order, and which effects are still subscribed afterwards. */
  function Merged(effects: seq<Effect>, alive: seq<bool>, action: JsValue): (r: (seq<JsValue>, seq<bool>))
    requires |alive| == |effects|
    ensures |r.1| == |effects|
    ensures forall i :: 0 <= i < |effects| ==> r.1[i] == (alive[i] && effects[i].run(action).Emit?)
  {
    if effects == [] then ([], [])
    else
      var n := |effects| - 1;
      var prev := Merged(effects[..n], alive[..n], action);
      var e := effects[n];
      (prev.0 + (if alive[n] then Outputs(e, action) else []), prev.1 + [alive[n] && e.run(action).Emit?])
  }

  /** Effects registered without dispatch, and effects no longer subscribed,
      contribute nothing to the merged output. */
  lemma {:induction false} SilentEffectsAddNothing(effects: seq<Effect>, alive: seq<bool>, action: JsValue)
    requires |alive| == |effects|
    requires forall i :: 0 <= i < |effects| ==> !alive[i] || !effects[i].dispatch
    ensures Merged(effects, alive, action).0 == []
  {
    if effects != [] {
      var n := |effects| - 1;
      SilentEffectsAddNothing(effects[..n], alive[..n], action);
    }
  }

  /** The side-effect registry built by `createSideEffects`. */
  class SideEffects {
    /** Every action dispatched, after the seed; its last entry is the
        current value a new subscriber sees. */
    var log: seq<JsValue>
    var effects: seq<Effect>

    ghost predicate Valid()
      reads this
    {
      |log| >= 1 && log[0] == StoreInitAction()
    }

    constructor()
      ensures Valid() && log == [StoreInitAction()] && effects == []
    {
      log := [StoreInitAction()];
      effects := [];
    }

    /** `dispatchAction` */
    method DispatchAction(action: JsValue)
      requires Valid()
      modifies this`log
      ensures Valid() && log == old(log) + [action]
    {
      log := log + [action];
    }

    /** `addSideEffect`: one more effect, every earlier one kept. */
    method AddSideEffect(run: EffectFn, dispatch: bool)
      modifies this`effects
      ensures effects == old(effects) + [Effect(run, dispatch)]
    {
      effects := effects + [Effect(run, dispatch)];
    }

    /** The action log's current value. */
    function Current(): (a: JsValue)
      requires Valid()
      reads this
      ensures |log| == 1 ==> a == StoreInitAction()
      ensures a in log
    {
      log[|log| - 1]
    }
  }
}
