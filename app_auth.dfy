/** The authentication side effect (src/app/deconzAuthentication.ts): once
    the settings are loaded, the gateway token is checked and the result is
    dispatched as the new authentication status. */
module AppAuth {
  import opened Js
  import opened RxActions
  import opened RxReducer
  import opened RxSideEffect
  import opened RxStore
  import opened DeconzApi
  import opened AppState

  /** `updateAuthStatusAction({authStatus})` for a token check's verdict. */
  function AuthStatusAction(valid: bool): (a: JsValue)
  {
    Create(UpdateAuthStatus, Obj([("authStatus", Str(if valid then "authenticated" else "failed"))]))
  }

  /** The effect registered by `setupAuthenticationSideEffects`, per action it
      sees. `check` is how the gateway's token check settles and `destroyed`
      whether the destroy signal has fired before the action: from then on
      no check starts. A rejected check ends the effect. */
  function AuthEffect(check: TokenCheck, destroyed: bool): EffectFn
  {
    (action: JsValue) =>
      if !IsAction(action, SettingsLoaded) || destroyed then Emit([])
      else match check
        case Resolved(valid) => Emit([AuthStatusAction(valid)])
        case Rejected(_) => Fail([])
  }

  /** Only `appstate-settings-loaded` starts a check; a settled check yields
      exactly one status action, `failed` for an invalid token and
      `authenticated` for a valid one. */
  lemma AuthEffectOutputs(check: TokenCheck, destroyed: bool, action: JsValue)
    ensures var out := AuthEffect(check, destroyed)(action);
            && (!IsAction(action, SettingsLoaded) || destroyed ==> out == Emit([]))
            && (IsAction(action, SettingsLoaded) && !destroyed && check.Resolved? ==>
                  && out.Emit? && |out.values| == 1
                  && IsAction(out.values[0], UpdateAuthStatus)
                  && Payload(out.values[0], "authStatus") == Str(if check.valid then "authenticated" else "failed"))
            && (IsAction(action, SettingsLoaded) && !destroyed && check.Rejected? ==> out == Fail([]))
  {
    if IsAction(action, SettingsLoaded) && !destroyed && check.Resolved? {
      var a := AuthStatusAction(check.valid);
      assert Payload(a, "authStatus") == Str(if check.valid then "authenticated" else "failed");
    }
  }

  /** The status action sets the service state's authentication status and
      nothing else. */
  lemma AuthStatusReachesState(service: JsValue, valid: bool, k: string)
    requires service.Obj?
    ensures var r := ServiceReducer(service, AuthStatusAction(valid));
            && r.Obj?
            && Lookup(r.fields, k) == if k == "authStatus" then Some(Str(if valid then "authenticated" else "failed")) else Lookup(service.fields, k)
  {
    var a := AuthStatusAction(valid);
    assert Payload(a, "authStatus") == Str(if valid then "authenticated" else "failed");
    assert !IsAction(a, UpdateAppState);
    ServiceReducerChangesOneKey(service, a, k);
  }

  /** `setupAuthenticationSideEffects(onDestroy$)`: registers the effect,
      with dispatch. */
  method SetupAuthenticationSideEffects(store: Store, check: TokenCheck, destroyed: bool)
    requires store.Valid()
    modifies store.sideEffects`effects, store`alive, store`pending
    ensures store.Valid()
    ensures store.sideEffects.effects == old(store.sideEffects.effects) + [Effect(AuthEffect(check, destroyed), true)]
  {
    store.AddSideEffect(AuthEffect(check, destroyed), true);
  }
}
