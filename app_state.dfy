/** The application's state (src/state): its action creators, its initial
    value and the three branch reducers the store's root reducer combines. */
module AppState {
  import opened Js
  import opened RxActions
  import opened RxReducer

  const LoadSettings: ActionCreator := CreateAction("load-settings")
  const SettingsLoaded: ActionCreator := CreateAction("appstate-settings-loaded")
  const UpdateAppState: ActionCreator := CreateAction("update-appstate")
  const UpdateAuthStatus: ActionCreator := CreateAction("update-authstatus")
  const AddLight: ActionCreator := CreateAction("add-light")
  const UpdateLight: ActionCreator := CreateAction("update-light")
  const RemoveLight: ActionCreator := CreateAction("remove-light")

  /** `action.props.<key>` */
  function Payload(action: JsValue, key: string): JsValue
  {
    Prop(Prop(action, "props"), key)
  }

  // ---------------------------------------------------------------------------
  // Initial state (src/state/state.ts)
  // ---------------------------------------------------------------------------

  const InitialSettingsControllerState: JsValue :=
    Obj([("ctrlId", Str("hc-deconz2homie-1")), ("ctrlName", Str("deCONZ to homie interface controller"))])

  const InitialSettingsDeconzState: JsValue :=
    Obj([("host", Str("localhost")), ("port", Num(80)), ("wsPort", Num(8080)), ("secure", Bool(false)),
         ("tokenRequestWait", Num(20)), ("apiToken", Undefined)])

  const InitialMqttState: JsValue :=
    Obj([("url", Str("mqtt://localhost")), ("username", Str("")), ("password", Str("")), ("topicRoot", Str("homie"))])

  const InitialSettingsState: JsValue :=
    Obj([("controller", InitialSettingsControllerState), ("deconz", InitialSettingsDeconzState), ("mqtt", InitialMqttState)])

  const InitialServiceState: JsValue :=
    Obj([("appState", Str("init")), ("authStatus", Str("unauthenticated"))])

  const InitialResourcesState: JsValue :=
    Obj([("lights", Obj([])), ("groups", Obj([])), ("sensors", Obj([]))])

  const InitialApplicationState: JsValue :=
    Obj([("service", InitialServiceState), ("settings", InitialSettingsState), ("resources", InitialResourcesState)])

  // ---------------------------------------------------------------------------
  // Spreading a few literal properties onto a copy
  // ---------------------------------------------------------------------------

  /** `{...a, [k]: v}` */
  lemma SpreadOneLookup(a: Assoc<JsValue>, k: string, v: JsValue, k': string)
    ensures Lookup(Spread(a, [(k, v)]), k') == if k' == k then Some(v) else Lookup(a, k')
  {
    assert Spread(a, [(k, v)]) == Put(a, k, v);
    LookupPut(a, k, v, k');
  }

  /** `{...a, [k1]: v1, [k2]: v2, [k3]: v3}` with three distinct keys. */
  lemma SpreadThreeLookup(a: Assoc<JsValue>, k1: string, v1: JsValue, k2: string, v2: JsValue, k3: string, v3: JsValue, k: string)
    requires k1 != k2 && k1 != k3 && k2 != k3
    ensures Lookup(Spread(a, [(k1, v1), (k2, v2), (k3, v3)]), k)
         == if k == k1 then Some(v1) else if k == k2 then Some(v2) else if k == k3 then Some(v3) else Lookup(a, k)
  {
    var b := [(k1, v1), (k2, v2), (k3, v3)];
    assert Keys(b) == [k1, k2, k3];
    LookupSpread(a, b, k);
  }

  // ---------------------------------------------------------------------------
  // Branch reducers (src/state/reducers.ts)
  // ---------------------------------------------------------------------------

  /** `SettingsReducer`: a `load-settings` action overlays each of the loaded
      `controller`, `deconz` and `mqtt` settings onto the current ones. */
  function SettingsReducer(state: JsValue, action: JsValue): (r: JsValue)
    ensures Nullish(action) || !IsAction(action, LoadSettings) ==> r == state
  {
    if Nullish(action) then state
    else if IsAction(action, LoadSettings) then
      var loaded := Payload(action, "settings");
      Obj(Spread(OwnProps(state), [
        ("controller", BaseStateReducer(Prop(state, "controller"), Prop(loaded, "controller"))),
        ("deconz", BaseStateReducer(Prop(state, "deconz"), Prop(loaded, "deconz"))),
        ("mqtt", BaseStateReducer(Prop(state, "mqtt"), Prop(loaded, "mqtt")))]))
    else state
  }

  /** On `load-settings`, the three settings groups are replaced by their
      overlays and every other property of the settings is kept. */
  lemma SettingsReducerLoads(state: JsValue, action: JsValue, k: string)
    requires state.Obj? && IsAction(action, LoadSettings)
    ensures var r := SettingsReducer(state, action);
            var loaded := Payload(action, "settings");
            && r.Obj?
            && Lookup(r.fields, k) ==
                 if k in ["controller", "deconz", "mqtt"] then Some(BaseStateReducer(Prop(state, k), Prop(loaded, k)))
                 else Lookup(state.fields, k)
  {
    var loaded := Payload(action, "settings");
    assert !Nullish(action);
    SpreadThreeLookup(state.fields,
      "controller", BaseStateReducer(Prop(state, "controller"), Prop(loaded, "controller")),
      "deconz", BaseStateReducer(Prop(state, "deconz"), Prop(loaded, "deconz")),
      "mqtt", BaseStateReducer(Prop(state, "mqtt"), Prop(loaded, "mqtt")), k);
  }

  /** `ServiceReducer`: sets the application state or the authentication
      status from the action's payload; `appstate-settings-loaded` sets the
      application state to `settingsLoaded`. */
  function ServiceReducer(state: JsValue, action: JsValue): (r: JsValue)
    ensures Nullish(action) ==> r == state
    ensures !IsAction(action, UpdateAppState) && !IsAction(action, UpdateAuthStatus) && !IsAction(action, SettingsLoaded) ==> r == state
  {
    if Nullish(action) then state
    else if IsAction(action, UpdateAppState) then
      Obj(Spread(OwnProps(state), [("appState", Payload(action, "appState"))]))
    else if IsAction(action, UpdateAuthStatus) then
      Obj(Spread(OwnProps(state), [("authStatus", Payload(action, "authStatus"))]))
    else if IsAction(action, SettingsLoaded) then
      Obj(Spread(OwnProps(state), [("appState", Str("settingsLoaded"))]))
    else state
  }

  /** Each recognised action changes exactly one property of the service
      state, and every other property keeps its value. */
  lemma ServiceReducerChangesOneKey(state: JsValue, action: JsValue, k: string)
    requires state.Obj? && !Nullish(action)
    ensures var r := ServiceReducer(state, action);
            && (IsAction(action, UpdateAppState) ==>
                  r.Obj? && Lookup(r.fields, k) == if k == "appState" then Some(Payload(action, "appState")) else Lookup(state.fields, k))
            && (IsAction(action, UpdateAuthStatus) ==>
                  r.Obj? && Lookup(r.fields, k) == if k == "authStatus" then Some(Payload(action, "authStatus")) else Lookup(state.fields, k))
            && (IsAction(action, SettingsLoaded) ==>
                  r.Obj? && Lookup(r.fields, k) == if k == "appState" then Some(Str("settingsLoaded")) else Lookup(state.fields, k))
  {
    if IsAction(action, UpdateAppState) {
      SpreadOneLookup(state.fields, "appState", Payload(action, "appState"), k);
    } else if IsAction(action, UpdateAuthStatus) {
      SpreadOneLookup(state.fields, "authStatus", Payload(action, "authStatus"), k);
    } else if IsAction(action, SettingsLoaded) {
      SpreadOneLookup(state.fields, "appState", Str("settingsLoaded"), k);
    }
  }

  /** `ResourcesReducer`: every branch returns the state it was given. */
  function ResourcesReducer(state: JsValue, action: JsValue): (r: JsValue)
    ensures r == state
  {
    if Nullish(action) then state
    else if IsAction(action, AddLight) then state
    else if IsAction(action, RemoveLight) then state
    else if IsAction(action, UpdateAppState) then state
    else state
  }

  /** `AppActionReducerMap` (src/state/index.ts) */
  function AppReducers(): (m: map<string, Reducer>)
    ensures m.Keys == {"service", "settings", "resources"}
  {
    map["service" := ServiceReducer, "settings" := SettingsReducer, "resources" := ResourcesReducer]
  }
}
