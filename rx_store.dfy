/** The store (src/basic-rx/index.ts): a state stream and a side-effect
    registry wired together. Nothing flows until `initState`; from then on
    every dispatched action that looks like an action is reduced, every
    dispatched action is shown to the subscribed effects, and their outputs
    that look like actions are queued and dispatched in turn, one at a time
    (`Step`), until `stopState`. */
module RxStore {
  import opened Js
  import opened RxReducer
  import opened RxState
  import opened RxSideEffect

  /** The forwarding guard: a truthy object with an own `type` that is a string. */
  predicate IsActionLike(o: JsValue)
  {
    o.Obj? && HasKey(o.fields, "type") && Lookup(o.fields, "type").value.Str?
  }

  /** The values that pass the forwarding guard, in order. */
  function Guarded(values: seq<JsValue>): (r: seq<JsValue>)
    ensures forall v :: v in r <==> v in values && IsActionLike(v)
  {
    if values == [] then []
    else
      var n := |values| - 1;
      var init := Guarded(values[..n]);
      assert forall v :: v in values <==> v in values[..n] || v == values[n];
      init + (if IsActionLike(values[n]) then [values[n]] else [])
  }

  /** The root reducer over `reducers`, for a state object whose keys all have
      a reducer; `StoreReducerKeepsShape` shows the guard holds again on every
      state it returns. */
  function StoreReducer(reducers: map<string, Reducer>): StateReducer
  {
    (s: JsValue, a: JsValue) =>
      if ReducibleBy(reducers, s) then RootReducer(reducers, s, a) else s
  }

  /** A state object whose keys all have a reducer. */
  predicate ReducibleBy(reducers: map<string, Reducer>, s: JsValue)
  {
    s.Obj? && forall k :: k in Keys(s.fields) ==> k in reducers
  }

  /** The store's reducer keeps the keys of a reducible state, so every state
      it produces is reducible again and the root reducer always runs. */
  lemma StoreReducerKeepsShape(reducers: map<string, Reducer>, s: JsValue, a: JsValue)
    requires ReducibleBy(reducers, s)
    ensures var next := StoreReducer(reducers)(s, a);
      ReducibleBy(reducers, next) && Keys(next.fields) == Keys(s.fields)
  {
  }

  class Store {
    const stateStream: StateStream
    const sideEffects: SideEffects
    /** Which effects are still subscribed. */
    var alive: seq<bool>
    var initialized: bool
    var stopped: bool
    /** Effect outputs waiting to be dispatched. */
    var pending: seq<JsValue>

    ghost predicate Valid()
      reads this, stateStream, sideEffects
    {
      && stateStream.Valid() && sideEffects.Valid()
      && |alive| == |sideEffects.effects|
      && stateStream.stopped == stopped
      && (forall a :: a in stateStream.actions ==> IsActionLike(a))
      && (forall a :: a in pending ==> IsActionLike(a))
      && (!initialized ==> stateStream.actions == [] && pending == [])
      && (stopped ==> pending == [])
    }

    /** `createStore(initialApplicationState, reducerMap)` */
    constructor(initial: JsValue, reducers: map<string, Reducer>)
      ensures Valid() && fresh(stateStream) && fresh(sideEffects)
      ensures stateStream.initial == initial && stateStream.reducer == StoreReducer(reducers)
      ensures stateStream.actions == [] && sideEffects.log == [StoreInitAction()] && sideEffects.effects == []
      ensures !initialized && !stopped && pending == [] && alive == []
    {
      stateStream := new StateStream(initial, StoreReducer(reducers));
      sideEffects := new SideEffects();
      alive := [];
      initialized := false;
      stopped := false;
      pending := [];
    }

    /** One action as the running store receives it from the action log: it
        is reduced if it passes the guard, and shown to the subscribed effects,
        whose guarded outputs are queued. */
    method Deliver(action: JsValue)
      requires Valid() && initialized && !stopped
      modifies stateStream, this`alive, this`pending
      ensures Valid()
      ensures IsActionLike(action) ==> stateStream.actions == old(stateStream.actions) + [action]
      ensures !IsActionLike(action) ==> stateStream.actions == old(stateStream.actions)
      ensures var merged := Merged(sideEffects.effects, old(alive), action);
              pending == old(pending) + Guarded(merged.0) && alive == merged.1
    {
      if IsActionLike(action) {
        stateStream.StateAction(action);
      }
      var merged := Merged(sideEffects.effects, alive, action);
      pending := pending + Guarded(merged.0);
      alive := merged.1;
    }

    /** `dispatchAction`: logged always, delivered only while the store runs. */
    method DispatchAction(action: JsValue)
      requires Valid()
      modifies sideEffects`log, stateStream, this`alive, this`pending
      ensures Valid()
      ensures sideEffects.log == old(sideEffects.log) + [action]
      ensures !(old(initialized) && !stopped) ==> stateStream.actions == old(stateStream.actions)
                                                  && pending == old(pending) && alive == old(alive)
      ensures old(initialized) && !stopped && IsActionLike(action)
              ==> stateStream.actions == old(stateStream.actions) + [action]
      ensures old(initialized) && !stopped && !IsActionLike(action)
              ==> stateStream.actions == old(stateStream.actions)
      ensures old(initialized) && !stopped
              ==> pending == old(pending) + Guarded(Merged(sideEffects.effects, old(alive), action).0)
      ensures old(initialized) && !stopped
              ==> alive == Merged(sideEffects.effects, old(alive), action).1
    {
      sideEffects.DispatchAction(action);
      if initialized && !stopped {
        Deliver(action);
      }
    }

    /** The effect subscription forwards the oldest queued output. */
    method Step()
      requires Valid() && pending != []
      modifies sideEffects`log, stateStream, this`alive, this`pending
      ensures Valid()
      ensures sideEffects.log == old(sideEffects.log) + [old(pending)[0]]
      ensures stateStream.actions == old(stateStream.actions) + [old(pending)[0]]
      ensures pending == old(pending)[1..] + Guarded(Merged(sideEffects.effects, old(alive), old(pending)[0]).0)
      ensures alive == Merged(sideEffects.effects, old(alive), old(pending)[0]).1
    {
      var action := pending[0];
      pending := pending[1..];
      DispatchAction(action);
    }

    /** `initState`: only the first call counts (`take(1)`); it delivers the
        action log's current value, the store-init action if nothing was
        dispatched before. */
    method InitState()
      requires Valid()
      modifies this`initialized, stateStream, this`alive, this`pending
      ensures Valid() && initialized
      ensures old(initialized) || stopped ==> stateStream.actions == old(stateStream.actions) && pending == old(pending)
      ensures !old(initialized) && !stopped
              ==> stateStream.actions == (if IsActionLike(sideEffects.Current()) then [sideEffects.Current()] else [])
      ensures !old(initialized) && !stopped
              ==> pending == Guarded(Merged(sideEffects.effects, old(alive), sideEffects.Current()).0)
    {
      if initialized {
        return;
      }
      initialized := true;
      if !stopped {
        Deliver(sideEffects.Current());
      }
    }

    /** `stopState`: the state stream and both forwarding subscriptions end. */
    method StopState()
      requires Valid()
      modifies this`stopped, this`pending, stateStream`stopped
      ensures Valid() && stopped && pending == []
      ensures stateStream.actions == old(stateStream.actions)
    {
      stopped := true;
      stateStream.Stop();
      pending := [];
    }

    /** `addSideEffect`. While the store runs, the new list of effects is
        subscribed afresh: every effect, including one that had failed, sees
        the action log's current value again. */
    method AddSideEffect(run: EffectFn, dispatch: bool)
      requires Valid()
      modifies sideEffects`effects, this`alive, this`pending
      ensures Valid()
      ensures sideEffects.effects == old(sideEffects.effects) + [Effect(run, dispatch)]
      ensures !(initialized && !stopped) ==> alive == old(alive) + [true] && pending == old(pending)
      ensures initialized && !stopped ==>
                var merged := Merged(sideEffects.effects, seq(|sideEffects.effects|, _ => true), sideEffects.Current());
                pending == old(pending) + Guarded(merged.0) && alive == merged.1
    {
      sideEffects.AddSideEffect(run, dispatch);
      if initialized && !stopped {
        var merged := Merged(sideEffects.effects, seq(|sideEffects.effects|, _ => true), sideEffects.Current());
        pending := pending + Guarded(merged.0);
        alive := merged.1;
      } else {
        alive := alive + [true];
      }
    }

    /** `select(project)`: the state stream mapped through `project`. */
    function Select<T>(project: JsValue -> T): (r: seq<T>)
      reads stateStream
      ensures |r| == |stateStream.states|
      ensures forall i :: 0 <= i < |r| ==> r[i] == project(stateStream.states[i])
    {
      var states := stateStream.states;
      seq(|states|, i requires 0 <= i < |states| => project(states[i]))
    }
  }
}
