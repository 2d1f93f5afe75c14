/** Actions of the small flux-style store (src/basic-rx/actions.ts): an action
    is a plain object with a string `type` and a `props` payload, made by an
    action creator that carries the same `type`. */
module RxActions {
  import opened Js

  /** An action creator: a function of the payload that also carries its
      action type as a read-only property. */
  datatype ActionCreator = ActionCreator(actionType: string)

  /** `createAction(type)`: the creator for `type`. */
  function CreateAction(actionType: string): (c: ActionCreator)
    ensures c.actionType == actionType
  {
    ActionCreator(actionType)
  }

  /** Calling a creator: `{type, props}`; calling it without a payload leaves
      `props` present but `undefined`. */
  function Create(c: ActionCreator, props: JsValue): (a: JsValue)
    ensures a.Obj? && Keys(a.fields) == ["type", "props"]
    ensures Prop(a, "type") == Str(c.actionType) && Prop(a, "props") == props
  {
    Obj([("type", Str(c.actionType)), ("props", props)])
  }

  /** `isAction(action, creator)`: `action.type === creator.type`. */
  predicate IsAction(action: JsValue, c: ActionCreator)
    ensures IsAction(action, c) ==> action.Obj? && Lookup(action.fields, "type") == Some(Str(c.actionType))
  {
    Prop(action, "type") == Str(c.actionType)
  }

  /** An action a creator makes is recognised by that creator, and by no
      creator of another type. */
  lemma CreatedActionsMatchTheirCreator(c: ActionCreator, d: ActionCreator, props: JsValue)
    ensures IsAction(Create(c, props), d) <==> d.actionType == c.actionType
  {
  }

  /** The filter of `onAction([c1, ..., cn])`: an action matching any of the
      creators (`onAction(c)` is the one-creator case). */
  predicate MatchesAny(action: JsValue, creators: seq<ActionCreator>)
  {
    exists i :: 0 <= i < |creators| && IsAction(action, creators[i])
  }

  /** `onAction(creators)` applied to a run of actions. */
  function OnAction(actions: seq<JsValue>, creators: seq<ActionCreator>): (r: seq<JsValue>)
    ensures |r| <= |actions|
    ensures forall a :: a in r <==> a in actions && MatchesAny(a, creators)
  {
    if actions == [] then []
    else
      var init := OnAction(actions[..|actions| - 1], creators);
      var last := actions[|actions| - 1];
      assert forall a :: a in actions <==> a in actions[..|actions| - 1] || a == last;
      if MatchesAny(last, creators) then init + [last] else init
  }

  /** The filter passes actions through in their order: filtering a run that
      continues another is filtering each and concatenating. */
  lemma {:induction false} OnActionAppend(a: seq<JsValue>, b: seq<JsValue>, creators: seq<ActionCreator>)
    ensures OnAction(a + b, creators) == OnAction(a, creators) + OnAction(b, creators)
    decreases |b|
  {
    if b == [] {
      assert a + b == a;
    } else {
      var b' := b[..|b| - 1];
      assert (a + b)[..|a + b| - 1] == a + b';
      assert (a + b)[|a + b| - 1] == b[|b| - 1];
      OnActionAppend(a, b', creators);
    }
  }

  /** With a single creator, `onAction(c)` keeps exactly the actions of type
      `c.type`. */
  lemma OnSingleAction(actions: seq<JsValue>, c: ActionCreator)
    ensures forall a :: a in OnAction(actions, [c]) <==> a in actions && IsAction(a, c)
  {
    assert forall a :: MatchesAny(a, [c]) <==> IsAction(a, c) by {
      forall a ensures MatchesAny(a, [c]) <==> IsAction(a, c) {
        if IsAction(a, c) {
          assert [c][0] == c;
        }
      }
    }
  }
}
