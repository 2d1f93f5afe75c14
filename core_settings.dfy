/** The core's settings object (src/core/Settings.ts): every field is read
    from the environment with its default, and the MQTT connection options
    are copied from the MQTT fields. */
module CoreSettings {
  import opened Js
  import opened EnvParsers

  /** `MQTTConnectOpts` as the settings fill it. */
  datatype MqttOpts = MqttOpts(url: string, username: string, password: string, topicRoot: string)

  datatype Settings = Settings(
    controllerId: string,
    controllerName: string,
    deconzSecure: bool,
    deconzHost: string,
    deconzPort: int,
    deconzWsPort: int,
    deconzApiToken: string,
    mqttUrl: string,
    mqttUser: string,
    mqttPassword: string,
    mqttTopicRoot: string,
    mqttOpts: MqttOpts)

  /** `new Settings()`: the parameter defaults are evaluated in order, so an
      invalid controller id throws before anything else is read. */
  function ReadSettings(env: Env, ns: string, isHomieId: string -> bool): (r: Outcome<Settings>)
    ensures r.Ok? <==> isHomieId(StringEnvVal(env, ns, "CTRL_ID", "hc-deconz2homie-1"))
    ensures r.Ok? ==> r.value.mqttOpts == MqttOpts(r.value.mqttUrl, r.value.mqttUser, r.value.mqttPassword, r.value.mqttTopicRoot)
    ensures r.Ok? ==> r.value.deconzWsPort == NumberEnvVal(env, ns, "DECONZ_WS_PORT", 443)
    ensures r.Ok? ==> r.value.deconzPort == NumberEnvVal(env, ns, "DECONZ_PORT", 80)
    ensures r.Ok? ==> r.value.deconzSecure == BoolEnvVal(env, ns, "DECONZ_SECURE", false)
  {
    match HomieIdEnvVal(env, ns, "CTRL_ID", "hc-deconz2homie-1", isHomieId)
    case Thrown(message) => Thrown(message)
    case Ok(controllerId) =>
      var mqttUrl := StringEnvVal(env, ns, "MQTT_URL", "");
      var mqttUser := StringEnvVal(env, ns, "MQTT_USERNAME", "");
      var mqttPassword := StringEnvVal(env, ns, "MQTT_PASSWORD", "");
      var mqttTopicRoot := StringEnvVal(env, ns, "MQTT_TOPIC_ROOT", "homie");
      Ok(Settings(
        controllerId,
        StringEnvVal(env, ns, "CTRL_NAME", "deCONZ to homie interface controller"),
        BoolEnvVal(env, ns, "DECONZ_SECURE", false),
        StringEnvVal(env, ns, "DECONZ_HOST", "localhost"),
        NumberEnvVal(env, ns, "DECONZ_PORT", 80),
        NumberEnvVal(env, ns, "DECONZ_WS_PORT", 443),
        StringEnvVal(env, ns, "DECONZ_API_TOKEN", ""),
        mqttUrl, mqttUser, mqttPassword, mqttTopicRoot,
        MqttOpts(mqttUrl, mqttUser, mqttPassword, mqttTopicRoot)))
  }

  /** With nothing set in the environment, the defaults are read: the
      websocket port is 443, the REST port 80, and the connection is not
      secure. */
  lemma SettingsDefaults(ns: string, isHomieId: string -> bool)
    requires isHomieId("hc-deconz2homie-1")
    ensures var r := ReadSettings(map[], ns, isHomieId);
            && r.Ok?
            && r.value.deconzWsPort == 443 && r.value.deconzPort == 80 && !r.value.deconzSecure
            && r.value.deconzHost == "localhost"
            && r.value.mqttOpts == MqttOpts("", "", "", "homie")
  {
  }

  /** An invalid controller id makes the settings throw, naming the id. */
  lemma InvalidControllerIdThrows(env: Env, ns: string, isHomieId: string -> bool)
    requires !isHomieId(StringEnvVal(env, ns, "CTRL_ID", "hc-deconz2homie-1"))
    ensures ReadSettings(env, ns, isHomieId)
         == Thrown("[" + StringEnvVal(env, ns, "CTRL_ID", "hc-deconz2homie-1") + "] is not a valid homie-id")
  {
  }
}
