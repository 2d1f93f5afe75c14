/** The gateway's REST client (src/deconz/DeconzAPI.ts): URL and request
    building, and the decision logic of the token check. The HTTP client is
    not modelled: each request is appended to a log of request configs, and
    the response (or failure) it gets is a parameter. */
module DeconzApi {
  import opened Js

  /** `${protocol}://` */
  function ProtoPrefix(secure: bool): string
  {
    if secure then "https://" else "http://"
  }

  /** `${hostname}:${port}/api`, the part of the base URL after the protocol. */
  function HostPart(hostname: string, port: int): string
  {
    hostname + ":" + IntToString(port) + "/api"
  }

  /** `${protocol}://${hostname}:${port}/api` */
  function BaseUrl(secure: bool, hostname: string, port: int): string
  {
    ProtoPrefix(secure) + HostPart(hostname, port)
  }

  /** `makeAPIURL(includeToken)`: the base URL, followed by `/<token>/` when
      the token is included (the token rendered as a template literal renders
      it, so a missing token shows up as `undefined`). */
  function MakeApiUrl(secure: bool, hostname: string, port: int, token: JsValue, includeToken: bool): (u: string)
    ensures BaseUrl(secure, hostname, port) <= u
    ensures includeToken ==> u[|BaseUrl(secure, hostname, port)|..] == "/" + ToStr(token) + "/"
    ensures |u| > 0 && (u[|u| - 1] == '/' <==> includeToken)
  {
    var base := BaseUrl(secure, hostname, port);
    assert base[|base| - 1] == HostPart(hostname, port)[|HostPart(hostname, port)| - 1] == 'i';
    var withToken := base + "/" + ToStr(token) + "/";
    assert withToken == base + ("/" + ToStr(token) + "/");
    if includeToken then withToken else base
  }

  /** The two forms of the URL: the token-less one is a prefix of the other,
      which appends exactly `/<token>/`; and both start with `https://`
      exactly when `secure` is set. */
  lemma {:induction false} ApiUrlShape(secure: bool, hostname: string, port: int, token: JsValue, includeToken: bool)
    ensures var withToken := MakeApiUrl(secure, hostname, port, token, true);
      var without := MakeApiUrl(secure, hostname, port, token, false);
      && without <= withToken
      && withToken[|without|..] == "/" + ToStr(token) + "/"
    ensures var u := MakeApiUrl(secure, hostname, port, token, includeToken);
      (|u| >= 8 && u[..8] == "https://") <==> secure
  {
    var p, h, t := ProtoPrefix(secure), HostPart(hostname, port), ToStr(token);
    assert MakeApiUrl(secure, hostname, port, token, false) == p + h;
    assert MakeApiUrl(secure, hostname, port, token, true) == p + h + "/" + t + "/";
    UrlPieces(secure, h, t, includeToken);
  }

  /** `ApiUrlShape` over the rendered host part `h` and token `t`. */
  lemma UrlPieces(secure: bool, h: string, t: string, includeToken: bool)
    ensures var p := ProtoPrefix(secure);
      && p + h <= p + h + "/" + t + "/"
      && (p + h + "/" + t + "/")[|p + h|..] == "/" + t + "/"
    ensures var u := if includeToken then ProtoPrefix(secure) + h + "/" + t + "/" else ProtoPrefix(secure) + h;
      (|u| >= 8 && u[..8] == "https://") <==> secure
  {
    var p := ProtoPrefix(secure);
    var u := if includeToken then p + h + "/" + t + "/" else p + h;
    assert (p + h + "/" + t + "/") == (p + h) + ("/" + t + "/");
    assert u[..|p|] == p;
    if !secure {
      assert u[4] == p[4] == ':';
    }
  }

  /** A request config: the object handed to the HTTP client. */
  type Config = Assoc<JsValue>

  /** `makeDefaultConfig` */
  function DefaultConfig(apiUrl: string): (c: Config)
    ensures UniqueKeys(c)
    ensures Lookup(c, "url") == Some(Str(apiUrl)) && "data" !in Keys(c) && "method" !in Keys(c)
  {
    [("url", Str(apiUrl)), ("timeout", Num(3000)), ("responseType", Str("json")),
     ("timeoutErrorMessage", Str("timeout"))]
  }

  /** `getRequestConfig`: the defaults overridden key by key. */
  function RequestConfig(defaults: Config, config: Config): (c: Config)
    ensures UniqueKeys(config) ==> forall k ::
      Lookup(c, k) == if k in Keys(config) then Lookup(config, k) else Lookup(defaults, k)
  {
    assert UniqueKeys(config) ==> forall k ::
      Lookup(Spread(defaults, config), k) == if k in Keys(config) then Lookup(config, k) else Lookup(defaults, k) by {
      if UniqueKeys(config) {
        forall k ensures Lookup(Spread(defaults, config), k)
          == if k in Keys(config) then Lookup(config, k) else Lookup(defaults, k) {
          LookupSpread(defaults, config, k);
        }
      }
    }
    Spread(defaults, config)
  }

  /** The config `apiCall` sends: method and full URL over the defaults, and
      `data` only for a truthy payload. */
  function CallConfig(defaults: Config, httpMethod: string, path: string, payload: JsValue, apiUrl: string): Config
  {
    var config := RequestConfig(defaults, [("method", Str(httpMethod)), ("url", Str(apiUrl + path))]);
    if Truthy(payload) then Put(config, "data", payload) else config
  }

  /** What the client is asked for, key by key: the given method at
      `apiUrl + path`, a `data` body exactly when the payload is truthy, and
      every other key as the defaults have it. */
  lemma {:induction false} CallConfigLookup(defaults: Config, httpMethod: string, path: string, payload: JsValue,
                                            apiUrl: string, k: string)
    ensures Lookup(CallConfig(defaults, httpMethod, path, payload, apiUrl), k) ==
      if k == "data" && Truthy(payload) then Some(payload)
      else if k == "method" then Some(Str(httpMethod))
      else if k == "url" then Some(Str(apiUrl + path))
      else Lookup(defaults, k)
  {
    var o: Config := [("method", Str(httpMethod)), ("url", Str(apiUrl + path))];
    assert UniqueKeys(o) by {
      assert o[0].0 != o[1].0;
    }
    assert Keys(o) == ["method", "url"];
    assert o[1..] == [("url", Str(apiUrl + path))];
    LookupSpread(defaults, o, k);
    var c := RequestConfig(defaults, o);
    if Truthy(payload) {
      LookupPut(c, "data", payload, k);
    }
  }

  /** The defaults: the API URL, a 3000 ms timeout, JSON responses, and no body. */
  lemma DefaultConfigContents(apiUrl: string)
    ensures Lookup(DefaultConfig(apiUrl), "url") == Some(Str(apiUrl))
    ensures Lookup(DefaultConfig(apiUrl), "timeout") == Some(Num(3000))
    ensures Lookup(DefaultConfig(apiUrl), "responseType") == Some(Str("json"))
    ensures Lookup(DefaultConfig(apiUrl), "timeoutErrorMessage") == Some(Str("timeout"))
    ensures Lookup(DefaultConfig(apiUrl), "data") == None
  {
    var d := DefaultConfig(apiUrl);
    assert Keys(d) == ["url", "timeout", "responseType", "timeoutErrorMessage"];
    assert d[1..][1..][1..] == [("timeoutErrorMessage", Str("timeout"))];
  }

  /** Request paths. */
  function LightStatePath(id: string): string { "lights/" + id + "/state" }
  function GroupActionPath(id: string): string { "groups/" + id + "/action" }
  function SceneRecallPath(groupId: string, sceneId: string): string
  {
    "groups/" + groupId + "/scenes/" + sceneId + "/recall"
  }
  function GroupPath(id: string): string { "groups/" + id }

  /** `response?.[0]?.success?.username` */
  function TokenFromResponse(response: JsValue): (t: JsValue)
    ensures t != Undefined ==> response.Arr? && |response.items| > 0 && Prop(response.items[0], "success").Obj?
  {
    Prop(Prop(Index(response, 0), "success"), "username")
  }

  /** The username comes from the first element's `success` object only; any
      other shape of answer yields `undefined`. */
  lemma TokenFromResponseShape(username: JsValue, rest: seq<JsValue>)
    ensures TokenFromResponse(Arr([Obj([("success", Obj([("username", username)]))])] + rest)) == username
    ensures TokenFromResponse(Arr([])) == Undefined && TokenFromResponse(Null) == Undefined
    ensures TokenFromResponse(Arr([Obj([("error", Obj([("username", username)]))])] + rest)) == Undefined
  {
    var answer := Obj([("success", Obj([("username", username)]))]);
    assert Index(Arr([answer] + rest), 0) == answer;
    var refusal := Obj([("error", Obj([("username", username)]))]);
    assert Index(Arr([refusal] + rest), 0) == refusal;
    assert Keys(refusal.fields) == ["error"];
  }

  /** How a request ended. */
  datatype HttpOutcome =
    | Ok(data: JsValue)
    | AxiosError(status: Option<int>)   // an HTTP-client error, with the response status if one came
    | OtherError                        // any other rejection: a plain error without `toJSON`

  /** How the token check's promise settles. */
  datatype TokenCheck = Resolved(valid: bool) | Rejected(message: string)

  const UnknownErrorMessage := "Unknown error connecting to deCONZ. Please check you configuration."

  /** The `TypeError` raised by calling `err.toJSON()` on an error that has no
      such method: only HTTP-client errors carry one. */
  const ToJsonNotAFunction := "err.toJSON is not a function"

  /** `token === undefined || token === null || token === ""` */
  predicate MissingToken(token: JsValue)
  {
    token == Undefined || token == Null || token == Str("")
  }

  /** The outcome of the check once a request was made: success means a
      valid token and a 403 an invalid one. Any other HTTP-client error is
      logged through its `toJSON` and rejects with the configuration message;
      a non-client error has no `toJSON`, so the logging call itself throws
      and its `TypeError` is the rejection. */
  function TokenVerdict(outcome: HttpOutcome): (r: TokenCheck)
    ensures r == Resolved(true) <==> outcome.Ok?
    ensures r == Resolved(false) <==> outcome == AxiosError(Some(403))
    ensures outcome.AxiosError? && outcome != AxiosError(Some(403)) ==> r == Rejected(UnknownErrorMessage)
    ensures outcome.OtherError? ==> r == Rejected(ToJsonNotAFunction)
  {
    match outcome
    case Ok(_) => Resolved(true)
    case AxiosError(status) => if status == Some(403) then Resolved(false) else Rejected(UnknownErrorMessage)
    case OtherError => Rejected(ToJsonNotAFunction)
  }

  class DeconzApi {
    const hostname: string
    const port: int
    const token: JsValue
    const secure: bool
    const apiUrl: string
    const defaultCfg: Config
    /** Every request config handed to the HTTP client, in order. */
    var requests: seq<Config>

    constructor(hostname: string, port: int, token: JsValue, secure: bool)
      ensures this.hostname == hostname && this.port == port && this.token == token && this.secure == secure
      ensures apiUrl == MakeApiUrl(secure, hostname, port, token, true)
      ensures defaultCfg == DefaultConfig(apiUrl)
      ensures requests == []
    {
      this.hostname := hostname;
      this.port := port;
      this.token := token;
      this.secure := secure;
      apiUrl := MakeApiUrl(secure, hostname, port, token, true);
      defaultCfg := DefaultConfig(MakeApiUrl(secure, hostname, port, token, true));
      requests := [];
    }

    /** `apiCall`: issues one request. */
    method ApiCall(httpMethod: string, path: string, payload: JsValue, url: string)
      modifies this
      ensures requests == old(requests) + [CallConfig(defaultCfg, httpMethod, path, payload, url)]
    {
      var config := RequestConfig(defaultCfg, [("method", Str(httpMethod)), ("url", Str(url + path))]);
      if Truthy(payload) {
        config := Put(config, "data", payload);
      }
      requests := requests + [config];
    }

    /** `checkAPIToken`: no request at all for a missing token, which is
        reported invalid; otherwise one GET of the API root, judged by
        `TokenVerdict`. */
    method CheckApiToken(outcome: HttpOutcome) returns (r: TokenCheck)
      modifies this
      ensures MissingToken(token) ==> r == Resolved(false) && requests == old(requests)
      ensures !MissingToken(token) ==>
        r == TokenVerdict(outcome) && requests == old(requests) + [CallConfig(defaultCfg, "GET", "", Null, apiUrl)]
    {
      if token == Undefined || token == Null || token == Str("") {
        return Resolved(false);
      }
      ApiCall("GET", "", Null, apiUrl);
      r := TokenVerdict(outcome);
    }

    /** `requestAPIToken`: a POST of the device type to the token-less URL;
        the answer's username is returned. */
    method RequestApiToken(deviceType: string, response: JsValue) returns (username: JsValue)
      modifies this
      ensures requests == old(requests) + [CallConfig(defaultCfg, "POST", "",
        Obj([("devicetype", Str(deviceType))]), MakeApiUrl(secure, hostname, port, token, false))]
      ensures username == TokenFromResponse(response)
    {
      ApiCall("POST", "", Obj([("devicetype", Str(deviceType))]), MakeApiUrl(secure, hostname, port, token, false));
      username := TokenFromResponse(response);
    }

    method GetRessources()
      modifies this
      ensures requests == old(requests) + [CallConfig(defaultCfg, "GET", "", Null, apiUrl)]
    {
      ApiCall("GET", "", Null, apiUrl);
    }

    method SetLightState(id: string, state: JsValue)
      modifies this
      ensures requests == old(requests) + [CallConfig(defaultCfg, "PUT", LightStatePath(id), state, apiUrl)]
    {
      ApiCall("PUT", LightStatePath(id), state, apiUrl);
    }

    method SetGroupAction(id: string, action: JsValue)
      modifies this
      ensures requests == old(requests) + [CallConfig(defaultCfg, "PUT", GroupActionPath(id), action, apiUrl)]
    {
      ApiCall("PUT", GroupActionPath(id), action, apiUrl);
    }

    method RecallScene(groupId: string, sceneId: string)
      modifies this
      ensures requests == old(requests) + [CallConfig(defaultCfg, "PUT", SceneRecallPath(groupId, sceneId), Null, apiUrl)]
    {
      ApiCall("PUT", SceneRecallPath(groupId, sceneId), Null, apiUrl);
    }

    method GetGroupResource(id: string)
      modifies this
      ensures requests == old(requests) + [CallConfig(defaultCfg, "GET", GroupPath(id), Null, apiUrl)]
    {
      ApiCall("GET", GroupPath(id), Null, apiUrl);
    }
  }
}
