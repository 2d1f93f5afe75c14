/** The settings side effect (src/app/settings.ts): on the store-init action
    the settings are read from the environment and dispatched, followed by
    the announcement that they are loaded. */
module AppSettings {
  import opened Js
  import opened EnvParsers
  import opened RxActions
  import opened RxReducer
  import opened RxState
  import opened RxSideEffect
  import opened RxStore
  import opened AppState

  const DefaultCtrlId := "hc-deconz2homie-1"
  const DefaultCtrlName := "deCONZ to homie interface controller"

  /** The `deconz` settings group read from the environment. */
  function DeconzSettings(env: Env, ns: string): JsValue
  {
    Obj([
      ("host", Str(StringEnvVal(env, ns, "DECONZ_HOST", "localhost"))),
      ("port", Num(NumberEnvVal(env, ns, "DECONZ_PORT", 80))),
      ("wsPort", Num(NumberEnvVal(env, ns, "DECONZ_WS_PORT", 8080))),
      ("secure", Bool(BoolEnvVal(env, ns, "DECONZ_SECURE", false))),
      ("tokenRequestWait", Num(NumberEnvVal(env, ns, "DECONZ_TOKEN_REQUEST_WAIT", 20))),
      ("apiToken", Str(StringEnvVal(env, ns, "DECONZ_API_TOKEN", "")))])
  }

  /** The `mqtt` settings group read from the environment. */
  function MqttSettings(env: Env, ns: string): JsValue
  {
    Obj([
      ("url", Str(StringEnvVal(env, ns, "MQTT_URL", ""))),
      ("username", Str(StringEnvVal(env, ns, "MQTT_USERNAME", ""))),
      ("password", Str(StringEnvVal(env, ns, "MQTT_PASSWORD", ""))),
      ("topicRoot", Str(StringEnvVal(env, ns, "MQTT_TOPIC_ROOT", "homie")))])
  }

  /** The settings object the effect builds; reading the controller id comes
      first and throws on an invalid homie id. */
  function ReadSettings(env: Env, ns: string, isHomieId: string -> bool): (r: Outcome<JsValue>)
    ensures r.Ok? <==> isHomieId(StringEnvVal(env, ns, "CTRL_ID", DefaultCtrlId))
    ensures r.Ok? ==> Prop(r.value, "deconz") == DeconzSettings(env, ns) && Prop(r.value, "mqtt") == MqttSettings(env, ns)
    ensures r.Ok? ==> Prop(Prop(r.value, "controller"), "ctrlId") == Str(StringEnvVal(env, ns, "CTRL_ID", DefaultCtrlId))
  {
    match HomieIdEnvVal(env, ns, "CTRL_ID", DefaultCtrlId, isHomieId)
    case Thrown(message) => Thrown(message)
    case Ok(ctrlId) =>
      var controller := Obj([("ctrlId", Str(ctrlId)), ("ctrlName", Str(StringEnvVal(env, ns, "CTRL_NAME", DefaultCtrlName)))]);
      SettingsGroups(controller, DeconzSettings(env, ns), MqttSettings(env, ns));
      ControllerId(ctrlId, StringEnvVal(env, ns, "CTRL_NAME", DefaultCtrlName));
      Ok(Obj([("controller", controller), ("deconz", DeconzSettings(env, ns)), ("mqtt", MqttSettings(env, ns))]))
  }

  lemma SettingsGroups(controller: JsValue, deconz: JsValue, mqtt: JsValue)
    ensures var settings := Obj([("controller", controller), ("deconz", deconz), ("mqtt", mqtt)]);
            && Prop(settings, "controller") == controller
            && Prop(settings, "deconz") == deconz
            && Prop(settings, "mqtt") == mqtt
  {
    var fields := [("controller", controller), ("deconz", deconz), ("mqtt", mqtt)];
    assert Lookup(fields[2..], "mqtt") == Some(mqtt);
    assert Lookup(fields[1..], "mqtt") == Some(mqtt);
  }

  lemma ControllerId(ctrlId: string, ctrlName: string)
    ensures Prop(Obj([("ctrlId", Str(ctrlId)), ("ctrlName", Str(ctrlName))]), "ctrlId") == Str(ctrlId)
  {
  }

  /** `loadSettingsAction({settings})` */
  function LoadSettingsAction(settings: JsValue): JsValue
  {
    Create(LoadSettings, Obj([("settings", settings)]))
  }

  /** `settingsLoadedAction()` */
  function SettingsLoadedAction(): JsValue
  {
    Create(SettingsLoaded, Undefined)
  }

  /** The effect registered by `setupSettingsSideEffects`, per action it sees:
      store-init is answered by the two actions; a throw while reading ends
      the effect. */
  function SettingsEffect(env: Env, ns: string, isHomieId: string -> bool): EffectFn
  {
    (action: JsValue) =>
      if !IsAction(action, StoreInit) then Emit([])
      else match ReadSettings(env, ns, isHomieId)
        case Ok(settings) => Emit([LoadSettingsAction(settings), SettingsLoadedAction()])
        case Thrown(_) => Fail([])
  }

  /** Only the store-init action triggers the effect; it then emits exactly
      `load-settings` with the settings read, then `appstate-settings-loaded`,
      unless the controller id is invalid. */
  lemma SettingsEffectOutputs(env: Env, ns: string, isHomieId: string -> bool, action: JsValue)
    ensures var out := SettingsEffect(env, ns, isHomieId)(action);
            && (!IsAction(action, StoreInit) ==> out == Emit([]))
            && (IsAction(action, StoreInit) && ReadSettings(env, ns, isHomieId).Ok? ==>
                  && out.Emit? && |out.values| == 2
                  && IsAction(out.values[0], LoadSettings)
                  && Payload(out.values[0], "settings") == ReadSettings(env, ns, isHomieId).value
                  && IsAction(out.values[1], SettingsLoaded))
            && (IsAction(action, StoreInit) && ReadSettings(env, ns, isHomieId).Thrown? ==> out == Fail([]))
  {
    var read := ReadSettings(env, ns, isHomieId);
    if IsAction(action, StoreInit) && read.Ok? {
      LoadedAnnouncements(read.value);
    }
  }

  lemma LoadedAnnouncements(settings: JsValue)
    ensures IsAction(LoadSettingsAction(settings), LoadSettings)
    ensures Payload(LoadSettingsAction(settings), "settings") == settings
    ensures IsAction(SettingsLoadedAction(), SettingsLoaded)
  {
  }

  /** With nothing set in the environment, the defaults are read. */
  lemma SettingsDefaults(ns: string, isHomieId: string -> bool)
    requires isHomieId(DefaultCtrlId)
    ensures var r := ReadSettings(map[], ns, isHomieId);
            && r.Ok?
            && Prop(Prop(r.value, "controller"), "ctrlId") == Str("hc-deconz2homie-1")
            && DeconzSettings(map[], ns) == Obj([("host", Str("localhost")), ("port", Num(80)), ("wsPort", Num(8080)),
                 ("secure", Bool(false)), ("tokenRequestWait", Num(20)), ("apiToken", Str(""))])
            && MqttSettings(map[], ns) == Obj([("url", Str("")), ("username", Str("")), ("password", Str("")), ("topicRoot", Str("homie"))])
  {
  }

  /** `setupSettingsSideEffects()`: registers the effect, with dispatch. */
  method SetupSettingsSideEffects(store: Store, env: Env, ns: string, isHomieId: string -> bool)
    requires store.Valid()
    modifies store.sideEffects`effects, store`alive, store`pending
    ensures store.Valid()
    ensures store.sideEffects.effects == old(store.sideEffects.effects) + [Effect(SettingsEffect(env, ns, isHomieId), true)]
  {
    store.AddSideEffect(SettingsEffect(env, ns, isHomieId), true);
  }

  // ---------------------------------------------------------------------------
  // The settings reach the state
  // ---------------------------------------------------------------------------

  /** The application store's reducer. */
  function AppReducer(): StateReducer
  {
    StoreReducer(AppReducers())
  }

  predicate HasAppKeys(s: JsValue)
  {
    s.Obj? && Keys(s.fields) == ["service", "settings", "resources"]
  }

  lemma AppReducerBranches(s: JsValue, action: JsValue, k: string)
    requires HasAppKeys(s) && !Nullish(action)
    ensures var r := AppReducer()(s, action);
            && HasAppKeys(r)
            && Lookup(r.fields, k) == if k in AppReducers() then Some(AppReducers()[k](Sub(s.fields, k), action)) else None
  {
    assert forall k :: k in Keys(s.fields) ==> k in AppReducers();
    RootReducerBranches(AppReducers(), s, action, k);
  }

  /** The store-init action leaves the initial application state as it is. */
  lemma StoreInitKeepsInitialState()
    ensures AppReducer()(InitialApplicationState, StoreInitAction()) == InitialApplicationState
  {
    var s := InitialApplicationState;
    var a := StoreInitAction();
    assert Keys(s.fields) == ["service", "settings", "resources"];
    assert forall k :: k in Keys(s.fields) ==> k in AppReducers();
    assert !IsAction(a, UpdateAppState) && !IsAction(a, UpdateAuthStatus) && !IsAction(a, SettingsLoaded) && !IsAction(a, LoadSettings);
    forall k | k in Keys(s.fields)
      ensures AppReducers()[k](Sub(s.fields, k), a) == Sub(s.fields, k)
    {
    }
    RootReducerKeepsState(AppReducers(), s, a);
  }

  /** `load-settings` overlays the loaded `deconz` group and leaves the
      service state alone. */
  lemma LoadSettingsStep(s: JsValue, settings: JsValue)
    requires HasAppKeys(s) && Prop(s, "settings").Obj?
    ensures var s1 := AppReducer()(s, LoadSettingsAction(settings));
            && HasAppKeys(s1)
            && Prop(s1, "service") == Prop(s, "service")
            && Prop(s1, "settings").Obj?
            && Prop(Prop(s1, "settings"), "deconz") == BaseStateReducer(Prop(Prop(s, "settings"), "deconz"), Prop(settings, "deconz"))
  {
    var load := LoadSettingsAction(settings);
    var s1 := AppReducer()(s, load);
    assert !IsAction(load, UpdateAppState) && !IsAction(load, UpdateAuthStatus) && !IsAction(load, SettingsLoaded);
    AppReducerBranches(s, load, "service");
    assert AppReducers()["service"] == ServiceReducer;
    assert Sub(s.fields, "service") == Prop(s, "service");
    assert Lookup(s1.fields, "service") == Some(ServiceReducer(Prop(s, "service"), load));
    AppReducerBranches(s, load, "settings");
    assert AppReducers()["settings"] == SettingsReducer;
    assert Sub(s.fields, "settings") == Prop(s, "settings");
    assert Lookup(s1.fields, "settings") == Some(SettingsReducer(Prop(s, "settings"), load));
    LoadedDeconz(Prop(s, "settings"), settings);
  }

  lemma LoadedDeconz(current: JsValue, settings: JsValue)
    requires current.Obj?
    ensures var r := SettingsReducer(current, LoadSettingsAction(settings));
            && r.Obj?
            && Prop(r, "deconz") == BaseStateReducer(Prop(current, "deconz"), Prop(settings, "deconz"))
  {
    var load := LoadSettingsAction(settings);
    assert Payload(load, "settings") == settings;
    SettingsReducerLoads(current, load, "deconz");
  }

  /** `appstate-settings-loaded` sets the application state, keeps the
      authentication status and leaves the settings alone. */
  lemma SettingsLoadedStep(s: JsValue)
    requires HasAppKeys(s) && Prop(s, "service").Obj?
    ensures var s1 := AppReducer()(s, SettingsLoadedAction());
            && HasAppKeys(s1)
            && Prop(s1, "settings") == Prop(s, "settings")
            && Prop(Prop(s1, "service"), "appState") == Str("settingsLoaded")
            && Prop(Prop(s1, "service"), "authStatus") == Prop(Prop(s, "service"), "authStatus")
  {
    var loaded := SettingsLoadedAction();
    assert !IsAction(loaded, LoadSettings);
    AppReducerBranches(s, loaded, "service");
    AppReducerBranches(s, loaded, "settings");
    ServiceReducerChangesOneKey(Prop(s, "service"), loaded, "appState");
    ServiceReducerChangesOneKey(Prop(s, "service"), loaded, "authStatus");
  }

  /** After `load-settings` and `appstate-settings-loaded`, the service state
      reads `settingsLoaded`, the authentication status is untouched, and the
      loaded `deconz` group is overlaid on the previous one. */
  lemma SettingsReachState(s: JsValue, settings: JsValue)
    requires HasAppKeys(s)
    requires Prop(s, "service").Obj? && Prop(s, "settings").Obj?
    ensures var s2 := AppReducer()(AppReducer()(s, LoadSettingsAction(settings)), SettingsLoadedAction());
            && HasAppKeys(s2)
            && Prop(Prop(s2, "service"), "appState") == Str("settingsLoaded")
            && Prop(Prop(s2, "service"), "authStatus") == Prop(Prop(s, "service"), "authStatus")
            && Prop(Prop(s2, "settings"), "deconz") == BaseStateReducer(Prop(Prop(s, "settings"), "deconz"), Prop(settings, "deconz"))
  {
    LoadSettingsStep(s, settings);
    SettingsLoadedStep(AppReducer()(s, LoadSettingsAction(settings)));
  }
}
