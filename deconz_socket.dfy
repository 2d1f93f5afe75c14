/** The gateway's push socket (src/deconz/DeconzSocket.ts): a reconnecting
    WebSocket client kept alive by ping/pong, written as a small state machine
    over `retries`, `shouldClose`, `awaitPong`, `pinger` and `socket`.
    The `ws` library is an opaque handle; `setTimeout` timers are an explicit
    table of pending callbacks that the environment fires with `FireTimer`. */
module DeconzSocket {
  import opened Js

  /** `reconnectMaxRetries`: a count, or `Infinity` (the default). */
  datatype Limit = Finite(n: nat) | Infinity

  /** `count >= limit`; nothing reaches `Infinity`. */
  predicate Reached(count: nat, limit: Limit)
  {
    limit.Finite? && count >= limit.n
  }

  /** The options a caller may pass; `None` is a key the object does not have. */
  datatype SocketOptions = SocketOptions(
    secure: Option<bool>,
    pingInterval: Option<nat>,
    pingTimeout: Option<nat>,
    reconnectInterval: Option<nat>,
    reconnectMaxRetries: Option<Limit>,
    autoConnect: Option<bool>)

  /** The options in effect, every key present. */
  datatype Options = Options(
    secure: bool,
    pingInterval: nat,
    pingTimeout: nat,
    reconnectInterval: nat,
    reconnectMaxRetries: Limit,
    autoConnect: bool)

  const DefaultOptions := Options(false, 10000, 3000, 10000, Infinity, true)

  function OrElse<T>(o: Option<T>, default: T): T
  {
    if o.Some? then o.value else default
  }

  /** `{ ...defaultOptions, ...options }`. `None` is a `null` options object
      (what the event layer passes) or an omitted one; both spread nothing. */
  function EffectiveOptions(options: Option<SocketOptions>): (r: Options)
    ensures options.None? ==> r == DefaultOptions
    ensures options.Some? && options.value.secure.Some? && options.value.pingInterval.Some?
            && options.value.pingTimeout.Some? && options.value.reconnectInterval.Some?
            && options.value.reconnectMaxRetries.Some? && options.value.autoConnect.Some?
            ==> r == Options(options.value.secure.value, options.value.pingInterval.value,
                             options.value.pingTimeout.value, options.value.reconnectInterval.value,
                             options.value.reconnectMaxRetries.value, options.value.autoConnect.value)
  {
    match options
    case None => DefaultOptions
    case Some(o) =>
      Options(
        OrElse(o.secure, DefaultOptions.secure),
        OrElse(o.pingInterval, DefaultOptions.pingInterval),
        OrElse(o.pingTimeout, DefaultOptions.pingTimeout),
        OrElse(o.reconnectInterval, DefaultOptions.reconnectInterval),
        OrElse(o.reconnectMaxRetries, DefaultOptions.reconnectMaxRetries),
        OrElse(o.autoConnect, DefaultOptions.autoConnect))
  }

  /** Key by key, a supplied option overrides its default and a missing one
      keeps it; an object with no keys gives exactly the defaults. */
  lemma EffectiveOptionsOverride(o: SocketOptions)
    ensures EffectiveOptions(Some(o)).secure == if o.secure.Some? then o.secure.value else false
    ensures EffectiveOptions(Some(o)).pingInterval == if o.pingInterval.Some? then o.pingInterval.value else 10000
    ensures EffectiveOptions(Some(o)).pingTimeout == if o.pingTimeout.Some? then o.pingTimeout.value else 3000
    ensures EffectiveOptions(Some(o)).reconnectInterval
         == if o.reconnectInterval.Some? then o.reconnectInterval.value else 10000
    ensures EffectiveOptions(Some(o)).reconnectMaxRetries
         == if o.reconnectMaxRetries.Some? then o.reconnectMaxRetries.value else Infinity
    ensures EffectiveOptions(Some(o)).autoConnect == if o.autoConnect.Some? then o.autoConnect.value else true
    ensures o == SocketOptions(None, None, None, None, None, None) ==> EffectiveOptions(Some(o)) == EffectiveOptions(None)
  {
  }

  /** Supplying the options in effect again changes nothing. */
  lemma EffectiveOptionsIdempotent(o: Option<SocketOptions>)
    ensures var e := EffectiveOptions(o);
      EffectiveOptions(Some(SocketOptions(Some(e.secure), Some(e.pingInterval), Some(e.pingTimeout),
        Some(e.reconnectInterval), Some(e.reconnectMaxRetries), Some(e.autoConnect)))) == e
  {
  }

  /** The protocol part of an address: `${protocol}://`. */
  function SchemePrefix(secure: bool): string
  {
    if secure then "wss://" else "ws://"
  }

  /** `makeAddress`: `wss://host:port` when secure, `ws://host:port` otherwise. */
  function MakeAddress(secure: bool, hostname: string, port: int): (a: string)
    ensures SchemePrefix(secure) <= a
    ensures a[|SchemePrefix(secure)|..] == hostname + ":" + IntToString(port)
  {
    var rest := hostname + ":" + IntToString(port);
    PrefixedBy(secure, rest);
    SchemePrefix(secure) + rest
  }

  /** The address says which scheme was chosen: it starts with `wss://`
      exactly when `secure` is set, and otherwise with `ws://`; the rest is
      `host:port`. */
  lemma {:induction false} AddressScheme(secure: bool, hostname: string, port: int)
    ensures var a := MakeAddress(secure, hostname, port);
      (|a| >= 6 && a[..6] == "wss://") <==> secure
    ensures !secure ==> MakeAddress(secure, hostname, port)[..5] == "ws://"
    ensures var a := MakeAddress(secure, hostname, port);
      a[|SchemePrefix(secure)|..] == hostname + ":" + IntToString(port)
  {
    var rest := hostname + ":" + IntToString(port);
    assert MakeAddress(secure, hostname, port) == SchemePrefix(secure) + rest;
    PrefixedBy(secure, rest);
  }

  lemma PrefixedBy(secure: bool, rest: string)
    ensures var a := SchemePrefix(secure) + rest;
      && ((|a| >= 6 && a[..6] == "wss://") <==> secure)
      && (!secure ==> a[..5] == "ws://")
      && SchemePrefix(secure) <= a
      && a[|SchemePrefix(secure)|..] == rest
  {
    var p := SchemePrefix(secure);
    var a := p + rest;
    assert a[..|p|] == p;
    assert a[|p|..] == rest;
    if !secure {
      assert a[2] == ':';
    }
  }

  /** The timer table once `clearTimeout` has cancelled the handles `a` and `b`,
      where present. */
  function WithoutHandles(t: map<nat, Timer>, a: Option<nat>, b: Option<nat>): map<nat, Timer>
  {
    t - (if a.Some? then {a.value} else {}) - (if b.Some? then {b.value} else {})
  }

  /** Tasks a pending `setTimeout` will run. */
  datatype Task = PongTimeout | PingTick | Reconnect

  datatype Timer = Timer(task: Task, delay: nat)

  /** A `WebSocket` object: the serial of its creation and the address it dialled. */
  datatype Ws = Ws(serial: nat, address: string)

  /** Calls made on `WebSocket` objects. */
  datatype WsCall = Created(serial: nat, address: string) | SentPing(serial: nat)
    | SentPong(serial: nat) | ClosedSocket(serial: nat) | Terminated(serial: nat)

  /** Events the socket emits. */
  datatype Emitted = ReconnectMaxRetries(limit: Limit) | Opened | Closed(code: JsValue, reason: JsValue)
    | PongTimeoutEvent | Pong | Message(payload: JsValue) | Error(err: JsValue)
    | Unauthorized | UnexpectedResponse

  /** What `JSON.parse` made of a frame. */
  datatype ParseOutcome = Parsed(value: JsValue) | ParseError(err: JsValue)

  class DeconzSocket {
    const hostname: string
    const port: int
    const token: string
    const options: Options

    var socket: Option<Ws>
    var retries: nat
    var shouldClose: bool
    var awaitPong: Option<nat>
    var pinger: Option<nat>

    /** Pending `setTimeout` callbacks by handle. */
    var timers: map<nat, Timer>
    var nextHandle: nat
    /** Number of `WebSocket` objects created so far. */
    var sockets: nat
    var emitted: seq<Emitted>
    var wsCalls: seq<WsCall>

    /** Handles are issued once: every pending timer and every handle the
        socket holds was issued before `nextHandle`, and the current socket
        is one already created. */
    ghost predicate Valid()
      reads this
    {
      && (forall h :: h in timers ==> h < nextHandle)
      && (awaitPong.Some? ==> awaitPong.value < nextHandle)
      && (pinger.Some? ==> pinger.value < nextHandle)
      && (socket.Some? ==> socket.value.serial < sockets)
    }

    /** `isReady`: there is a socket, the library reports it OPEN (`open`), and
        no close was requested. */
    predicate IsReady(open: bool)
      reads this
    {
      socket.Some? && open && !shouldClose
    }

    /** The constructor: options merged over the defaults, then `connect()`
        when `autoConnect` is set. */
    constructor(hostname: string, port: int, token: string, supplied: Option<SocketOptions>)
      ensures Valid()
      ensures this.hostname == hostname && this.port == port && this.token == token
      ensures options == EffectiveOptions(supplied)
      ensures !shouldClose && awaitPong == None && pinger == None && timers == map[]
      ensures !options.autoConnect ==> retries == 0 && socket == None && emitted == [] && wsCalls == []
      ensures options.autoConnect ==>
        && retries == 1
        && socket == Some(Ws(0, MakeAddress(options.secure, hostname, port)))
        && wsCalls == [Created(0, MakeAddress(options.secure, hostname, port))]
        && emitted == (if Reached(0, options.reconnectMaxRetries) then [ReconnectMaxRetries(options.reconnectMaxRetries)] else [])
    {
      this.hostname := hostname;
      this.port := port;
      this.token := token;
      options := EffectiveOptions(supplied);
      socket := None;
      retries := 0;
      shouldClose := false;
      awaitPong := None;
      pinger := None;
      timers := map[];
      nextHandle := 0;
      sockets := 0;
      emitted := [];
      wsCalls := [];
      new;
      if options.autoConnect {
        CountRetry();
        OpenSocket();
      }
    }

    method SetTimeout(task: Task, delay: nat) returns (h: nat)
      requires Valid()
      modifies this
      ensures Valid()
      ensures h == old(nextHandle) && nextHandle == h + 1 && h !in old(timers)
      ensures timers == old(timers)[h := Timer(task, delay)]
      ensures unchanged(this`socket, this`retries, this`shouldClose, this`awaitPong, this`pinger)
      ensures unchanged(this`sockets, this`emitted, this`wsCalls)
    {
      h := nextHandle;
      timers := timers[h := Timer(task, delay)];
      nextHandle := nextHandle + 1;
    }

    method ClearTimeout(h: nat)
      requires Valid()
      modifies this
      ensures Valid()
      ensures timers == old(timers) - {h}
      ensures unchanged(this`socket, this`retries, this`shouldClose, this`awaitPong, this`pinger)
      ensures unchanged(this`nextHandle, this`sockets, this`emitted, this`wsCalls)
    {
      timers := timers - {h};
    }

    /** `this.retries++ >= this.options.reconnectMaxRetries`, with the warning. */
    method CountRetry()
      requires Valid()
      modifies this
      ensures Valid()
      ensures retries == old(retries) + 1
      ensures emitted == old(emitted) + (if Reached(old(retries), options.reconnectMaxRetries)
        then [ReconnectMaxRetries(options.reconnectMaxRetries)] else [])
      ensures unchanged(this`socket, this`shouldClose, this`awaitPong, this`pinger, this`timers)
      ensures unchanged(this`nextHandle, this`sockets, this`wsCalls)
    {
      var before := retries;
      retries := retries + 1;
      if Reached(before, options.reconnectMaxRetries) {
        emitted := emitted + [ReconnectMaxRetries(options.reconnectMaxRetries)];
      }
    }

    /** `this.socket = new WebSocket(this.makeAddress())` when it succeeds. */
    method OpenSocket()
      requires Valid()
      modifies this
      ensures Valid()
      ensures socket == Some(Ws(old(sockets), MakeAddress(options.secure, hostname, port)))
      ensures sockets == old(sockets) + 1
      ensures wsCalls == old(wsCalls) + [Created(old(sockets), MakeAddress(options.secure, hostname, port))]
      ensures unchanged(this`retries, this`shouldClose, this`awaitPong, this`pinger, this`timers)
      ensures unchanged(this`nextHandle, this`emitted)
    {
      var address := MakeAddress(options.secure, hostname, port);
      socket := Some(Ws(sockets, address));
      wsCalls := wsCalls + [Created(sockets, address)];
      sockets := sockets + 1;
    }

    /** `connect`: counts the attempt (warning once the count reaches the
        limit, but connecting anyway) and opens a new socket. When the
        `WebSocket` constructor throws `wsError`, the failure goes through
        `onClose(err, null)` and is rethrown (`threw`); the old socket stays. */
    method Connect(wsError: Option<JsValue>) returns (threw: bool)
      requires Valid()
      modifies this
      ensures Valid()
      ensures threw <==> wsError.Some?
      ensures retries == old(retries) + 1
      ensures var warned := if Reached(old(retries), options.reconnectMaxRetries)
          then [ReconnectMaxRetries(options.reconnectMaxRetries)] else [];
        if wsError.None? then
          && socket == Some(Ws(old(sockets), MakeAddress(options.secure, hostname, port)))
          && sockets == old(sockets) + 1
          && wsCalls == old(wsCalls) + [Created(old(sockets), MakeAddress(options.secure, hostname, port))]
          && emitted == old(emitted) + warned
          && unchanged(this`awaitPong, this`pinger, this`timers, this`nextHandle)
        else
          && socket == old(socket) && sockets == old(sockets) && wsCalls == old(wsCalls)
          && awaitPong == None && pinger == None
          && (if shouldClose then
                && emitted == old(emitted) + warned + [Closed(wsError.value, Null)]
                && timers == WithoutHandles(old(timers), old(pinger), old(awaitPong))
                && nextHandle == old(nextHandle)
              else
                && emitted == old(emitted) + warned
                && timers == WithoutHandles(old(timers), old(pinger), old(awaitPong))
                                [old(nextHandle) := Timer(Reconnect, options.reconnectInterval)]
                && nextHandle == old(nextHandle) + 1)
      ensures shouldClose == old(shouldClose)
    {
      CountRetry();
      if wsError.Some? {
        OnClose(wsError.value, Null);
        return true;
      }
      OpenSocket();
      return false;
    }

    /** `close`: requests a close and drops the socket. Without a socket the
        call `this.socket.close()` throws (`threw`), after `shouldClose` is set. */
    method Close() returns (threw: bool)
      requires Valid()
      modifies this
      ensures Valid()
      ensures shouldClose && socket == None
      ensures !IsReady(true) && !IsReady(false)
      ensures threw <==> old(socket).None?
      ensures wsCalls == old(wsCalls) + (if old(socket).Some? then [ClosedSocket(old(socket).value.serial)] else [])
      ensures unchanged(this`retries, this`awaitPong, this`pinger, this`timers, this`nextHandle)
      ensures unchanged(this`sockets, this`emitted)
    {
      shouldClose := true;
      if socket.None? {
        return true;
      }
      wsCalls := wsCalls + [ClosedSocket(socket.value.serial)];
      socket := None;
      return false;
    }

    /** `ping`: when ready, pings and arms the pong timeout. */
    method Ping(open: bool)
      requires Valid()
      modifies this
      ensures Valid()
      ensures !old(IsReady(open)) ==>
        && timers == old(timers) && awaitPong == old(awaitPong)
        && wsCalls == old(wsCalls) && nextHandle == old(nextHandle)
      ensures old(IsReady(open)) ==>
        && wsCalls == old(wsCalls) + [SentPing(old(socket).value.serial)]
        && awaitPong == Some(old(nextHandle))
        && timers == old(timers)[old(nextHandle) := Timer(PongTimeout, options.pingTimeout)]
        && nextHandle == old(nextHandle) + 1
      ensures unchanged(this`socket, this`retries, this`shouldClose, this`pinger, this`sockets, this`emitted)
    {
      if IsReady(open) {
        wsCalls := wsCalls + [SentPing(socket.value.serial)];
        var h := SetTimeout(PongTimeout, options.pingTimeout);
        awaitPong := Some(h);
      }
    }

    /** `onOpen`: resets the retry count, emits `open`, then pings. */
    method OnOpen(open: bool)
      requires Valid()
      modifies this
      ensures Valid()
      ensures retries == 0
      ensures emitted == old(emitted) + [Opened]
      ensures old(IsReady(open)) <==> awaitPong == Some(old(nextHandle))
      ensures old(IsReady(open)) ==> timers == old(timers)[old(nextHandle) := Timer(PongTimeout, options.pingTimeout)]
      ensures !old(IsReady(open)) ==> timers == old(timers) && awaitPong == old(awaitPong)
      ensures old(IsReady(open)) ==>
        wsCalls == old(wsCalls) + [SentPing(old(socket).value.serial)] && nextHandle == old(nextHandle) + 1
      ensures !old(IsReady(open)) ==> wsCalls == old(wsCalls) && nextHandle == old(nextHandle)
      ensures unchanged(this`socket, this`shouldClose, this`pinger, this`sockets)
    {
      retries := 0;
      emitted := emitted + [Opened];
      ghost var h := nextHandle;
      Ping(open);
      assert awaitPong == old(awaitPong) || awaitPong == Some(h);
      if old(awaitPong) == Some(h) {
        assert false;
      }
    }

    /** `onClose`: cancels both keep-alive timers; schedules a reconnect after
        `reconnectInterval` unless a close was requested, in which case it
        emits `close` instead. */
    method OnClose(code: JsValue, reason: JsValue)
      requires Valid()
      modifies this
      ensures Valid()
      ensures pinger == None && awaitPong == None
      ensures var cleared := WithoutHandles(old(timers), old(pinger), old(awaitPong));
        if shouldClose then
          timers == cleared && emitted == old(emitted) + [Closed(code, reason)] && nextHandle == old(nextHandle)
        else
          timers == cleared[old(nextHandle) := Timer(Reconnect, options.reconnectInterval)]
          && emitted == old(emitted) && nextHandle == old(nextHandle) + 1
      ensures unchanged(this`socket, this`retries, this`shouldClose, this`sockets, this`wsCalls)
    {
      if pinger.Some? {
        ClearTimeout(pinger.value);
        pinger := None;
      }
      if awaitPong.Some? {
        ClearTimeout(awaitPong.value);
        awaitPong := None;
      }
      if !shouldClose {
        var _ := SetTimeout(Reconnect, options.reconnectInterval);
      } else {
        emitted := emitted + [Closed(code, reason)];
      }
    }

    /** `onPing`: answers with a pong when ready. */
    method OnPing(open: bool)
      requires Valid()
      modifies this
      ensures Valid()
      ensures wsCalls == old(wsCalls) + (if old(IsReady(open)) then [SentPong(old(socket).value.serial)] else [])
      ensures unchanged(this`socket, this`retries, this`shouldClose, this`awaitPong, this`pinger)
      ensures unchanged(this`timers, this`nextHandle, this`sockets, this`emitted)
    {
      if IsReady(open) {
        wsCalls := wsCalls + [SentPong(socket.value.serial)];
      }
    }

    /** `onPong`: cancels the pending pong timeout (the handle itself is kept),
        schedules the next ping after `pingInterval` and emits `pong`. */
    method OnPong()
      requires Valid()
      modifies this
      ensures Valid()
      ensures pinger == Some(old(nextHandle)) && nextHandle == old(nextHandle) + 1
      ensures timers == (if awaitPong.Some? then old(timers) - {awaitPong.value} else old(timers))
                        [old(nextHandle) := Timer(PingTick, options.pingInterval)]
      ensures emitted == old(emitted) + [Pong]
      ensures unchanged(this`socket, this`retries, this`shouldClose, this`awaitPong, this`sockets, this`wsCalls)
    {
      if awaitPong.Some? {
        ClearTimeout(awaitPong.value);
      }
      var h := SetTimeout(PingTick, options.pingInterval);
      pinger := Some(h);
      emitted := emitted + [Pong];
    }

    /** `onMessage` with `parseData`: a parsed payload is emitted as `message`
        when truthy. A parse failure is emitted as `error`; `parseData` then
        returns what `emit` returned — `true` when an `error` listener exists,
        so `message` is emitted with payload `true` — and `emit('error')`
        without a listener throws (`threw`). */
    method OnMessage(frame: ParseOutcome, errorListened: bool) returns (threw: bool)
      requires Valid()
      modifies this
      ensures Valid()
      ensures threw <==> frame.ParseError? && !errorListened
      ensures frame.Parsed? ==>
        emitted == old(emitted) + (if Truthy(frame.value) then [Message(frame.value)] else [])
      ensures frame.ParseError? && errorListened ==>
        emitted == old(emitted) + [Error(frame.err), Message(Bool(true))]
      ensures frame.ParseError? && !errorListened ==> emitted == old(emitted) + [Error(frame.err)]
      ensures unchanged(this`socket, this`retries, this`shouldClose, this`awaitPong, this`pinger)
      ensures unchanged(this`timers, this`nextHandle, this`sockets, this`wsCalls)
    {
      var payload: JsValue;
      match frame {
        case Parsed(v) =>
          payload := v;
        case ParseError(err) =>
          emitted := emitted + [Error(err)];
          if !errorListened {
            return true;
          }
          payload := Bool(true);
      }
      if Truthy(payload) {
        emitted := emitted + [Message(payload)];
      }
      return false;
    }

    /** `onUnexpectedResponse`: a 401 response is reported as `unauthorized`,
        anything else (or no response) as `unexpected-response`. */
    method OnUnexpectedResponse(status: Option<int>)
      modifies this
      ensures emitted == old(emitted) + [if status == Some(401) then Unauthorized else UnexpectedResponse]
      ensures unchanged(this`socket, this`retries, this`shouldClose, this`awaitPong, this`pinger)
      ensures unchanged(this`timers, this`nextHandle, this`sockets, this`wsCalls)
    {
      if status.Some? && status.value == 401 {
        emitted := emitted + [Unauthorized];
      } else {
        emitted := emitted + [UnexpectedResponse];
      }
    }

    /** `onError`: re-emits the error; without an `error` listener that throws. */
    method OnError(err: JsValue, errorListened: bool) returns (threw: bool)
      modifies this
      ensures threw <==> !errorListened
      ensures emitted == old(emitted) + [Error(err)]
      ensures unchanged(this`socket, this`retries, this`shouldClose, this`awaitPong, this`pinger)
      ensures unchanged(this`timers, this`nextHandle, this`sockets, this`wsCalls)
    {
      emitted := emitted + [Error(err)];
      threw := !errorListened;
    }

    /** The environment fires the pending timer `h`: a pong timeout emits
        `pong-timeout` and terminates the current socket (throwing when
        `close()` has already dropped it), a ping tick pings, a reconnect
        timer connects again (`wsError` is what the `WebSocket` constructor
        throws, if anything). */
    method FireTimer(h: nat, open: bool, wsError: Option<JsValue>) returns (threw: bool)
      requires Valid() && h in timers
      modifies this
      ensures Valid()
      ensures old(timers[h].task) == PongTimeout ==>
        && emitted == old(emitted) + [PongTimeoutEvent]
        && timers == old(timers) - {h}
        && (threw <==> socket.None?)
        && wsCalls == old(wsCalls) + (if socket.Some? then [Terminated(socket.value.serial)] else [])
        && unchanged(this`socket, this`retries, this`awaitPong, this`pinger, this`nextHandle, this`sockets)
      ensures old(timers[h].task) == PingTick ==>
        && !threw && emitted == old(emitted)
        && unchanged(this`socket, this`retries, this`pinger, this`sockets)
        && (old(IsReady(open)) ==>
              && wsCalls == old(wsCalls) + [SentPing(old(socket).value.serial)]
              && awaitPong == Some(old(nextHandle))
              && timers == (old(timers) - {h})[old(nextHandle) := Timer(PongTimeout, options.pingTimeout)]
              && nextHandle == old(nextHandle) + 1)
        && (!old(IsReady(open)) ==>
              && wsCalls == old(wsCalls) && awaitPong == old(awaitPong)
              && timers == old(timers) - {h} && nextHandle == old(nextHandle))
      ensures old(timers[h].task) == Reconnect ==>
        && (threw <==> wsError.Some?)
        && retries == old(retries) + 1
        && var warned := if Reached(old(retries), options.reconnectMaxRetries)
             then [ReconnectMaxRetries(options.reconnectMaxRetries)] else [];
           if wsError.None? then
             && socket == Some(Ws(old(sockets), MakeAddress(options.secure, hostname, port)))
             && sockets == old(sockets) + 1
             && wsCalls == old(wsCalls) + [Created(old(sockets), MakeAddress(options.secure, hostname, port))]
             && emitted == old(emitted) + warned
             && timers == old(timers) - {h}
             && unchanged(this`awaitPong, this`pinger, this`nextHandle)
           else
             && socket == old(socket) && sockets == old(sockets) && wsCalls == old(wsCalls)
             && awaitPong == None && pinger == None
             && (if shouldClose then
                   && emitted == old(emitted) + warned + [Closed(wsError.value, Null)]
                   && timers == WithoutHandles(old(timers) - {h}, old(pinger), old(awaitPong))
                   && nextHandle == old(nextHandle)
                 else
                   && emitted == old(emitted) + warned
                   && timers == WithoutHandles(old(timers) - {h}, old(pinger), old(awaitPong))
                                   [old(nextHandle) := Timer(Reconnect, options.reconnectInterval)]
                   && nextHandle == old(nextHandle) + 1)
      ensures shouldClose == old(shouldClose)
    {
      var task := timers[h].task;
      timers := timers - {h};
      match task {
        case PongTimeout =>
          emitted := emitted + [PongTimeoutEvent];
          if socket.None? {
            return true;
          }
          wsCalls := wsCalls + [Terminated(socket.value.serial)];
          return false;
        case PingTick =>
          ghost var next := nextHandle;
          Ping(open);
          if old(awaitPong) == Some(next) {
            assert false;
          }
          return false;
        case Reconnect =>
          threw := Connect(wsError);
      }
    }
  }
}
