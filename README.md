# hc-deconz2homie in Dafny

A model of the bookkeeping core of hc-deconz2homie, the bridge that exposes the
lights, groups and sensors of a deCONZ Zigbee gateway as Homie devices over
MQTT, with proofs of what that bookkeeping promises.

The model has four parts.

- **Sensor collation and device identity.**
  - `SensorCollator` groups the gateway's sensor endpoints by the MAC in their
    `uniqueid`. It then merges each batch into a MAC-keyed store that never
    loses an endpoint.
  - `DeviceFactory` picks a device class and id (`cube-…`, `switch-…`,
    `sensor-…`, `light-…`, `group-…`).
  - `SensorDevices` gives the per-device lookups and the rename filter.
  - `Group` builds a group's brightness map.
  - `DeconzModel` holds the resource type guards.
  - `Controller` is the replace-by-id device registry fed by collation events
    and gateway snapshots.
- **Event and transport logic.**
  - `DeconzEvents` classifies a gateway message into the ordered list of event
    names it emits.
  - `DeconzSocket` is the websocket state machine: retries, ping/pong timers,
    close and reconnect.
  - `DeconzApi` builds REST URLs and request configs, and decides the token
    check.
- **The flux-style store (basic-rx).**
  - `RxActions` has action creators and filters.
  - `RxReducer` has the overlay reducer and the root reducer.
  - `RxState` has the state as a left fold over the action log.
  - `RxSideEffect` has the action log and the effect registry.
  - `RxStore` wires them together, gated by `initState`/`stopState`. Values
    pass only if they have a string `type`, and effect outputs are fed back one
    at a time.
- **The application state on top of the store.**
  - `AppState` has the action creators, the initial state and the branch
    reducers.
  - `EnvParsers` has the environment-variable readers, including a model of
    `parseInt(…, 10)`.
  - `AppSettings` has the settings-on-store-init effect.
  - `AppAuth` has the token-check-to-auth-status effect.
  - `CoreSettings` has the core `Settings` object.

`Js` models the JavaScript values the code handles:
- `undefined`, `null`, booleans, integers, `NaN`, strings, arrays, and objects
  as ordered association lists;
- optional-chaining property reads, truthiness and template-literal
  conversion;
- `{...a, ...b}`, `split` and `join`.

Objects whose iteration order matters are association lists rather than maps.

State the source changes in place is held in classes:
- the collator's store and insert buffer;
- the socket's fields and its timer table;
- the API client's request log;
- the controller's registry;
- the factory's class table;
- the store's streams.

Timers, buffers and the scheduler's queue are explicit step methods:
- `SensorRessourceCollator.Flush` for the 750 ms buffer;
- `DeconzSocket.FireTimer` for `setTimeout`;
- `Store.Step` for the queue scheduler.

Things outside the model become parameters:
- the environment is a `map<string,string>`;
- `isHomieID` is a predicate;
- the `WebSocket` ready state is a flag;
- whether an `error` listener exists is a flag;
- the outcome of an HTTP call or a token check is a value;
- whether MQTT is connected is a flag.

## Model

| member | source | states |
|---|---|---|
| `SensorCollator.MacFromUniqueId` | src/deconzhomie/SensorRessourceCollator.ts:98-102 | A derived MAC is a prefix of the uniqueid and contains no `-` |
| `SensorCollator.MacIsTextBeforeFirstDash` | src/deconzhomie/SensorRessourceCollator.ts:98-102 | A MAC is derived iff the uniqueid contains both `:` and `-`; it is then the text before the first `-` |
| `SensorCollator.IsSensorIffMac` | src/deconzhomie/SensorRessourceCollator.ts:21-23 | A collated device passes `isSensor` iff its MAC is present and non-empty |
| `SensorCollator.Collate` | src/deconzhomie/SensorRessourceCollator.ts:107-111 | After one grouping step, the endpoint's MAC key holds a device that files the endpoint under its uniqueid |
| `SensorCollator.GroupByMac` | src/deconzhomie/SensorRessourceCollator.ts:104-114 | The grouped batch is keyed by MAC, each device sits under its own MAC, and endpoint keys are unique |
| `SensorCollator.CollateWellFormed` | src/deconzhomie/SensorRessourceCollator.ts:106-112 | Filing one more endpoint keeps the grouping keyed by MAC with unique endpoint keys |
| `SensorCollator.GroupByMacFilesByMac` | src/deconzhomie/SensorRessourceCollator.ts:107-110 | For every real MAC, the grouped device holds exactly the endpoints with that MAC, keyed by uniqueid, a later duplicate uniqueid overwriting the earlier one; absent if there are none |
| `SensorCollator.GroupByMacKeepsLastWithoutMac` | src/deconzhomie/SensorRessourceCollator.ts:107-111 | Endpoints without a MAC are not filtered out: the `"undefined"` key holds only the last of them, each replacing the previous |
| `SensorCollator.ToSensors` | src/deconzhomie/SensorRessourceCollator.ts:104-114 | The `forEach` loop over the batch computes exactly the grouping `GroupByMac` |
| `SensorCollator.MergeEventsLength` | src/deconzhomie/SensorRessourceCollator.ts:121-128 | The merge raises exactly one store event per grouped device |
| `SensorCollator.MergeBatch` | src/deconzhomie/SensorRessourceCollator.ts:121-128 | Merging never removes a device from the store and adds at most one per batch entry |
| `SensorCollator.MergeBatchLookup` | src/deconzhomie/SensorRessourceCollator.ts:121-128 | After the merge, a MAC of the batch holds the old endpoints overlaid by the new ones; every other MAC keeps its stored device |
| `SensorCollator.MergeBatchWellFormed` | src/deconzhomie/SensorRessourceCollator.ts:121-128 | Merging keeps the store keyed by MAC with unique endpoint keys |
| `SensorCollator.InsertKeepsEndpoints` | src/deconzhomie/SensorRessourceCollator.ts:122-124 | No stored endpoint is ever removed by inserting a batch |
| `SensorCollator.InsertOverlaysEndpoints` | src/deconzhomie/SensorRessourceCollator.ts:122-124 | For a stored MAC each endpoint becomes the batch's version if the batch has it and otherwise stays as stored |
| `SensorCollator.InsertNewAndUntouched` | src/deconzhomie/SensorRessourceCollator.ts:121-128 | A MAC new to the store is stored exactly as grouped; a MAC absent from the batch is untouched |
| `SensorCollator.MergeInto` | src/deconzhomie/SensorRessourceCollator.ts:121-128 | The loop of `hasId`/`addOrUpdate` calls leaves the store and the event log that the merge specification defines |
| `SensorCollator.SensorRessourceCollator.constructor` | src/deconzhomie/SensorRessourceCollator.ts:32-41 | A new collator is unsubscribed, with an empty store, buffer and event log |
| `SensorCollator.SensorRessourceCollator.OnInit` | src/deconzhomie/SensorRessourceCollator.ts:84-95 | Subscribes the insert buffer; nothing else changes |
| `SensorCollator.SensorRessourceCollator.Insert` | src/deconzhomie/SensorRessourceCollator.ts:44-49 | Enqueues `{id, mac: macFromResource(definition), definition}` iff id and definition are present and the buffer is subscribed; otherwise nothing changes |
| `SensorCollator.SensorRessourceCollator.InsertMany` | src/deconzhomie/SensorRessourceCollator.ts:51-53 | Enqueues what one `insert` per entry enqueues, in the map's order |
| `SensorCollator.SensorRessourceCollator.InsertRessources` | src/deconzhomie/SensorRessourceCollator.ts:117-130 | The store becomes the merge of the grouped batch into the old store; the events appended are the merge's events |
| `SensorCollator.SensorRessourceCollator.Flush` | src/deconzhomie/SensorRessourceCollator.ts:86-92 | A buffer tick empties the buffer and inserts its endpoints into the store |
| `SensorCollator.SensorRessourceCollator.OnDestroy` | src/deconzhomie/SensorRessourceCollator.ts:134-136 | Ending the buffer flushes what it holds and unsubscribes it |
| `SensorCollator.SensorRessourceCollator.FindById` | src/deconzhomie/SensorRessourceCollator.ts:63-78 | Returns nothing iff no stored endpoint has that id; otherwise the first such endpoint in store order |
| `SensorCollator.SensorRessourceCollator.GetAll` | src/deconzhomie/SensorRessourceCollator.ts:80-82 | The copy has the same value as the store under every MAC; under the collator's invariant it has unique MAC keys, each device filed under its own MAC, and distinct endpoint keys per device |
| `DeviceFactory.Qualify` | src/deconzhomie/DeviceFactory.ts:137-165 | Cube model gives `cube-<id>`; switch model gives `switch-<id>`; otherwise qualifies iff the type is mapped and its class registered, giving `sensor-<id>` with exactly the class registered under the mapped type; name and uniqueid come from the endpoint |
| `DeviceFactory.SensorDeviceInfo` | src/deconzhomie/DeviceFactory.ts:130-170 | Undefined iff no endpoint qualifies; otherwise the info of the first qualifying endpoint in iteration order |
| `DeviceFactory.UnregisteredMappingsAreSkipped` | src/deconzhomie/DeviceFactory.ts:44-72 | ZHAConsumption, ZHAPower and ZHAThermostat map to classes that are never registered, so such an endpoint is skipped |
| `DeviceFactory.RegisteredMappingsYieldSensors` | src/deconzhomie/DeviceFactory.ts:44-72 | Every other mapped type yields a `sensor-<id>` device of the class registered for it: humidity, temperature and pressure a weather sensor, presence and light level a motion sensor, open/close a contact sensor, switch a gesture sensor, vibration the vibration sensor |
| `DeviceFactory.RegisteredClassFor` | src/deconzhomie/DeviceFactory.ts:44-72 | Each of the eight registered gateway types maps to a smarthome type the constructor registers, under the class the mapping intends |
| `DeviceFactory.DeviceFactory.constructor` | src/deconzhomie/DeviceFactory.ts:59-74 | The class table starts with the nine registrations in order |
| `DeviceFactory.DeviceFactory.RegisterDeviceTypeClass` | src/deconzhomie/DeviceFactory.ts:76-78 | The type's class is overwritten; every other type keeps its class |
| `DeviceFactory.DeviceFactory.DetermineSensorDeviceInfo` | src/deconzhomie/DeviceFactory.ts:130-170 | The scan loop with early returns computes exactly `SensorDeviceInfo` |
| `DeviceFactory.DeviceFactory.CreateLightDevice` | src/deconzhomie/DeviceFactory.ts:80-99 | No device iff the resource is not a light; otherwise `light-<id>` with the resource's name, the `light` class and the factory's parent as parent and root |
| `DeviceFactory.DeviceFactory.CreateLightGroupDevice` | src/deconzhomie/DeviceFactory.ts:105-124 | No device iff the group's resource is not a group resource; otherwise `group-<id>` with the `group` class |
| `DeviceFactory.DeviceFactory.CreateSensorDevice` | src/deconzhomie/DeviceFactory.ts:172-199 | No device iff no info is found; throws the "mqtt not connected" message iff info is found and MQTT is down; otherwise the device carries the info's id, name and class, with the factory's parent id as parent and root |
| `Controller.RemoveDevice` | src/Controller.ts:219 | Removing an id keeps exactly the devices with another id |
| `Controller.Register` | src/Controller.ts:215-224 | No device from the factory leaves the registry as it is; a device is added last, and at most one old device goes |
| `Controller.RegisterAll` | src/Controller.ts:92-101 | A run of creates adds at most one device per create, and the last device created is the last registered |
| `Controller.RegisterAllSplits` | src/Controller.ts:215-224 | After a run of creates, the old devices whose ids the run does not create stay in order, followed by exactly what the run registers on an empty registry (each create is the `register` of src/Controller.ts:92-101) |
| `Controller.RegisterAllIdempotent` | src/Controller.ts:215-224 | Creating the same batch again (a second snapshot with the same resources) leaves the registry unchanged (each create is the `register` of src/Controller.ts:92-101) |
| `Controller.RegisterReplaces` | src/Controller.ts:218-222 | After a create, the new device is registered, it alone holds its id, other devices stay, and ids stay unique |
| `Controller.RemoveKeepsUnique` | src/Controller.ts:219 | Removal keeps ids unique |
| `Controller.SubsequenceUnique` | src/Controller.ts:218-219 | Whichever branch the `hasDevice` test takes, the kept registry has unique ids |
| `Controller.RegisterAllUnique` | src/Controller.ts:92-101 | Any sequence of creates keeps ids unique |
| `Controller.CreateTwice` | src/Controller.ts:218-222 | A second create under the same id removes and destroys the first before adding and initialising the second, leaving one device under the id |
| `Controller.RegisterEach` | src/Controller.ts:92-101 | The loop of creates computes the registry and the remove/destroy/add/init trace of the fold |
| `Controller.RegisterAllAppend` | src/Controller.ts:92-101 | Creating a batch in two parts leaves the same devices as creating it at once |
| `Controller.RegisterAllStepsAppend` | src/Controller.ts:92-101 | Creating a batch in two parts takes the same remove, destroy, add and initialise steps, in the same order, as creating it at once |
| `Controller.ChangedOnly` | src/Controller.ts:134 | The event stream passes exactly the messages with `e === "changed"` |
| `Controller.ChangedOnlyAppend` | src/Controller.ts:134 | The filter distributes over concatenated message streams |
| `Controller.Controller.constructor` | src/Controller.ts:37-44 | A new controller has an empty registry, trace and error log, is not stopping and has counter 0 |
| `Controller.Controller.AddOrReplace` | src/Controller.ts:217-223 | Nothing happens without a device; otherwise remove and destroy any device with the same id, then add and initialise |
| `Controller.Controller.CreateLight` | src/Controller.ts:226-235 | Registers the factory's light device by replace-by-id |
| `Controller.Controller.CreateLightGroup` | src/Controller.ts:237-246 | Registers the factory's group device by replace-by-id |
| `Controller.Controller.CreateSensor` | src/Controller.ts:215-224 | Registers the factory's sensor device; a factory throw is logged and the registry is unchanged |
| `Controller.Controller.OnCollationEvent` | src/Controller.ts:77-81 | Only `add` and `update` events create a sensor; other events change nothing |
| `Controller.Controller.LightDevices` | src/Controller.ts:92-96 | One independent create per light, in order |
| `Controller.Controller.GroupDevices` | src/Controller.ts:97-101 | One independent create per group, each built by `createGroup` from the snapshot's lights |
| `Controller.Controller.OnSnapshot` | src/Controller.ts:91-102 | The registry is the fold of all light creates then all group creates; every sensor goes to `insertMany` |
| `Controller.Controller.OnStreamError` | src/Controller.ts:121-129 | Each stream error increments the counter by one and the retry waits 2000 ms |
| `Controller.Controller.ConnectEventListener` | src/Controller.ts:250-254 | Does nothing once stopping; otherwise subscribes once more |
| `Controller.Controller.OnDestroy` | src/Controller.ts:258-259 | Sets `stopping` |
| `Controller.GroupOf` | src/deconzhomie/Group.ts:25 | The group built keeps the resource it was given |
| `SensorDevices.SensorDevice.constructor` | src/deconzhomie/SensorDevice.ts:27-32 | `ids` holds the id of every endpoint, one per entry, in iteration order |
| `SensorDevices.SensorDevice.GetSensorDefByType` | src/deconzhomie/SensorDevice.ts:53-63 | Undefined iff no endpoint has that type; otherwise the first endpoint that does |
| `SensorDevices.SensorDevice.GetByExtension` | src/deconzhomie/SensorDevice.ts:65-69 | Undefined iff no uniqueid key ends with the extension; otherwise the first entry whose key does |
| `SensorDevices.SensorDevice.IncludesSensorId` | src/deconzhomie/SensorDevice.ts:71-73 | Holds iff some endpoint of the device has that id |
| `SensorDevices.RenamedToAsWritten` | src/deconzhomie/SensorDevice.ts:43-47 | As written, every accepted rename sets the name to `undefined`, since the filter required `attr` to be falsy |
| `SensorDevices.RenameAsWrittenLosesName` | src/deconzhomie/SensorDevice.ts:43-47 | A concrete accepted rename that the code as written turns into `undefined` |
| `SensorDevices.RenamedTo` | src/deconzhomie/SensorDevice.ts:43-47 | An accepted rename sets the name to the message's non-empty `name`, which differs from the current one; anything else keeps the name |
| `SensorDevices.RenameIdempotent` | src/deconzhomie/SensorDevice.ts:43-44 | Delivering the same rename twice changes nothing the second time |
| `SensorDevices.SensorDevice.OnMessage` | src/deconzhomie/SensorDevice.ts:41-50 | The device's name after a message is the corrected rename's result |
| `Group.CreateGroup` | src/deconzhomie/Group.ts:14-26 | Returns the resource unchanged with the brightness map of its light ids |
| `Group.Brightness` | src/deconzhomie/Group.ts:18-23 | The brightness map has at most one entry per listed id |
| `Group.BrightnessLookup` | src/deconzhomie/Group.ts:18-23 | An id has a brightness iff it is listed in the group and its light exists; the value is that light's `state.bri` |
| `Group.BrightnessUnique` | src/deconzhomie/Group.ts:18-23 | The brightness map has each id once |
| `Group.CreatedGroupIsGroup` | src/deconzhomie/Group.ts:10-12 | A built group passes `isGroup` iff its resource is a group resource |
| `DeconzModel.IsLightResource` | src/deconz/deconz.model.ts:56-58 | Only an object with an object `state` can pass as a light |
| `DeconzModel.IsGroupResource` | src/deconz/deconz.model.ts:103-105 | Only an object with an object `state` and the own property `type: "LightGroup"` can pass as a group |
| `DeconzModel.IsSensorResource` | src/deconz/deconz.model.ts:175-177 | Anything that is not an object, `null` and `undefined` included, passes as a sensor |
| `DeconzModel.NonObjectsAreSensors` | src/deconz/deconz.model.ts:56-58 | A null, undefined or stateless resource is neither light nor group, hence a sensor |
| `DeconzModel.LightsWithOtherTypesAreNotGroups` | src/deconz/deconz.model.ts:103-105 | A light whose type is not `LightGroup` is neither a group nor a sensor |
| `DeconzModel.LightAndGroupOverlap` | src/deconz/deconz.model.ts:56-177 | The light and group guards overlap: a `LightGroup` object with `hascolor`, `devicemembership`, `state.on` and `state.all_on` passes both, and is no sensor |
| `DeconzEvents.DeconzEvents.constructor` | src/deconz/DeconzEvents.ts:133-142 | Nothing is emitted at construction |
| `DeconzEvents.DeconzEvents.Emit` | src/deconz/DeconzEvents.ts:159-180 | Emitting appends one name to the emitted log |
| `DeconzEvents.DeconzEvents.OnMessage` | src/deconz/DeconzEvents.ts:159-180 | The chain of emits appends exactly the message's classification |
| `DeconzEvents.DeconzEvents.EmitKind` | src/deconz/DeconzEvents.ts:162-176 | The if-chain emits exactly the specific names of the message's kind, in order, and nothing for an unrecognised kind |
| `DeconzEvents.IgnoredMessages` | src/deconz/DeconzEvents.ts:160 | Nothing is emitted iff the message is null or not `t === "event"` |
| `DeconzEvents.StateChange` | src/deconz/DeconzEvents.ts:162-164 | `changed` with `state` emits `event-state`, then `event-state-<r>`, then `event` |
| `DeconzEvents.AttrChange` | src/deconz/DeconzEvents.ts:165-167 | `changed` with `attr` and no `state` emits `event-attr`, then `event-attr-<r>`, then `event` |
| `DeconzEvents.BareChange` | src/deconz/DeconzEvents.ts:162-177 | `changed` with neither `state` nor `attr` emits only `event` |
| `DeconzEvents.SceneCalled` | src/deconz/DeconzEvents.ts:168-169 | `scene-called` emits `event-scene-called`, then `event` |
| `DeconzEvents.Added` | src/deconz/DeconzEvents.ts:170-172 | `added` emits `event-added`, then `event-added-<r>`, then `event` |
| `DeconzEvents.Deleted` | src/deconz/DeconzEvents.ts:173-175 | `deleted` emits `event-deleted`, then `event-deleted-<r>`, then `event` |
| `DeconzEvents.OtherEvents` | src/deconz/DeconzEvents.ts:177 | Any other accepted event type emits only `event` |
| `DeconzEvents.CatchAllExactlyOnceAndLast` | src/deconz/DeconzEvents.ts:162-177 | Every accepted message emits `event` exactly once, as the last emission |
| `DeconzEvents.SpecificNamesAreNotCatchAll` | src/deconz/DeconzEvents.ts:162-176 | No kind-specific name is `event` |
| `DeconzSocket.EffectiveOptions` | src/deconz/DeconzSocket.ts:42 | No options give the defaults; an options object supplying all six keys is taken as it is |
| `DeconzSocket.EffectiveOptionsOverride` | src/deconz/DeconzSocket.ts:13-42 | For each of the six keys (`secure`, `pingInterval`, `pingTimeout`, `reconnectInterval`, `reconnectMaxRetries`, `autoConnect`) a supplied value overrides the default and a missing one keeps the default (false, 10000, 3000, 10000, Infinity, true); supplying nothing equals supplying no options |
| `DeconzSocket.MakeAddress` | src/deconz/DeconzSocket.ts:71-74 | The address is the scheme prefix (`wss://` or `ws://`) followed by exactly `host:port` |
| `DeconzSocket.EffectiveOptionsIdempotent` | src/deconz/DeconzSocket.ts:13-20 | Merging the effective options again changes nothing |
| `DeconzSocket.AddressScheme` | src/deconz/DeconzSocket.ts:71-74 | The address starts with `wss://` iff secure, else `ws://`, followed by `host:port` |
| `DeconzSocket.DeconzSocket.constructor` | src/deconz/DeconzSocket.ts:37-47 | Fields set, options merged, no timers; with auto-connect, one connect has run |
| `DeconzSocket.DeconzSocket.SetTimeout` | src/deconz/DeconzSocket.ts:99 | Arms one new timer under a fresh handle; nothing else changes |
| `DeconzSocket.DeconzSocket.ClearTimeout` | src/deconz/DeconzSocket.ts:114 | Disarms exactly that handle |
| `DeconzSocket.DeconzSocket.CountRetry` | src/deconz/DeconzSocket.ts:50-52 | Increments `retries` and emits `reconnect-max-retries` iff the old count had reached the maximum |
| `DeconzSocket.DeconzSocket.OpenSocket` | src/deconz/DeconzSocket.ts:55 | Creates one new socket on the computed address |
| `DeconzSocket.DeconzSocket.Connect` | src/deconz/DeconzSocket.ts:49-128 | Counts the retry; on success opens one new socket on the computed address and leaves the timers alone; if the constructor throws, runs `onClose(err, null)` and rethrows: both timers are cleared and nulled, and then either a reconnect timer is armed under a fresh handle (not closing) or `close` is emitted with the error and null (closing) |
| `DeconzSocket.DeconzSocket.Close` | src/deconz/DeconzSocket.ts:78-82 | Sets `shouldClose`, closes and nulls the socket; then `isReady` is false; throws iff there was no socket |
| `DeconzSocket.DeconzSocket.Ping` | src/deconz/DeconzSocket.ts:96-104 | Only when ready: sends a ping and arms `awaitPong` with `pingTimeout`; otherwise nothing changes |
| `DeconzSocket.DeconzSocket.OnOpen` | src/deconz/DeconzSocket.ts:96-110 | Resets `retries` to 0, emits `open`, then pings: when ready, one ping is sent on the socket and the pong timeout is armed under a fresh handle; otherwise no call and no timer |
| `DeconzSocket.DeconzSocket.OnClose` | src/deconz/DeconzSocket.ts:112-128 | Clears and nulls both timers; schedules a reconnect iff not closing, else emits `close` |
| `DeconzSocket.DeconzSocket.OnPing` | src/deconz/DeconzSocket.ts:130-134 | Answers with a pong only when ready |
| `DeconzSocket.DeconzSocket.OnPong` | src/deconz/DeconzSocket.ts:136-143 | Clears the pending pong timeout, schedules the next ping after `pingInterval`, emits `pong` |
| `DeconzSocket.DeconzSocket.OnMessage` | src/deconz/DeconzSocket.ts:84-90 | Emits `message` only for a truthy parse result; a parse failure emits `error` and then forwards the result of that emit |
| `DeconzSocket.DeconzSocket.OnUnexpectedResponse` | src/deconz/DeconzSocket.ts:152-158 | Emits `unauthorized` for status 401, else `unexpected-response` |
| `DeconzSocket.DeconzSocket.OnError` | src/deconz/DeconzSocket.ts:160-162 | Emits `error`; throws iff nobody listens for it |
| `DeconzSocket.DeconzSocket.FireTimer` | src/deconz/DeconzSocket.ts:49-141 | The fired timer leaves the table. The pong timeout emits `pong-timeout` and terminates the socket (throwing if there is none). The ping tick pings: when ready, a ping is sent and the pong timeout armed, otherwise nothing else changes. The reconnect timer runs `connect` with the same new state as `Connect`: retry counted, `reconnect-max-retries` when reached, and either the new socket or the `onClose` clean-up with its reconnect timer or `close` event |
| `DeconzApi.ApiUrlShape` | src/deconz/DeconzAPI.ts:31-35 | The token URL is the token-less URL followed by `/<token>/`; the URL starts with `https://` iff secure |
| `DeconzApi.CallConfigLookup` | src/deconz/DeconzAPI.ts:46-56 | The request config overrides the defaults key by key: method, `apiUrl + path`, and `data` only for a truthy payload |
| `DeconzApi.MakeApiUrl` | src/deconz/DeconzAPI.ts:31-35 | The URL extends the base URL, by exactly `/<token>/` when the token is included; it ends in `/` iff the token is included |
| `DeconzApi.DefaultConfig` | src/deconz/DeconzAPI.ts:37-44 | The defaults have unique keys, carry the API URL, and set neither a method nor a body |
| `DeconzApi.RequestConfig` | src/deconz/DeconzAPI.ts:46-48 | Each key of the config overrides the default, every other key keeps the default |
| `DeconzApi.TokenFromResponse` | src/deconz/DeconzAPI.ts:82-84 | A defined token comes only from a non-empty array whose first element has a `success` object |
| `DeconzApi.DefaultConfigContents` | src/deconz/DeconzAPI.ts:37-44 | The defaults are the API URL, timeout 3000, JSON responses and a `timeout` message, with no data |
| `DeconzApi.TokenFromResponseShape` | src/deconz/DeconzAPI.ts:82-84 | The token is `response[0].success.username`, else undefined |
| `DeconzApi.TokenVerdict` | src/deconz/DeconzAPI.ts:67-75 | A successful call gives true; HTTP 403 gives false; any other HTTP-client error rejects with the configuration message; a non-client error rejects with the `TypeError` of calling its missing `toJSON` |
| `DeconzApi.DeconzApi.constructor` | src/deconz/DeconzAPI.ts:18-29 | The API URL includes the token and the default config is built from it |
| `DeconzApi.DeconzApi.ApiCall` | src/deconz/DeconzAPI.ts:51-59 | Issues one request with the merged config |
| `DeconzApi.DeconzApi.CheckApiToken` | src/deconz/DeconzAPI.ts:63-76 | An undefined, null or empty token resolves false without a request; otherwise one GET and the verdict |
| `DeconzApi.DeconzApi.RequestApiToken` | src/deconz/DeconzAPI.ts:78-85 | POSTs the device type to the token-less URL and returns the username |
| `DeconzApi.DeconzApi.GetRessources` | src/deconz/DeconzAPI.ts:87-89 | One GET on the API URL |
| `DeconzApi.DeconzApi.SetLightState` | src/deconz/DeconzAPI.ts:91-93 | PUT on `lights/<id>/state` |
| `DeconzApi.DeconzApi.SetGroupAction` | src/deconz/DeconzAPI.ts:95-97 | PUT on `groups/<id>/action` |
| `DeconzApi.DeconzApi.RecallScene` | src/deconz/DeconzAPI.ts:99-101 | PUT on `groups/<gid>/scenes/<sid>/recall` without data |
| `DeconzApi.DeconzApi.GetGroupResource` | src/deconz/DeconzAPI.ts:103-105 | GET on `groups/<id>` |
| `RxActions.CreateAction` | src/basic-rx/actions.ts:11 | The creator carries the action type it was made with |
| `RxActions.Create` | src/basic-rx/actions.ts:5-10 | A created action is `{type, props}` with the creator's type and the given props |
| `RxActions.IsAction` | src/basic-rx/actions.ts:22-24 | An action matches a creator only if it is an object whose own `type` is the creator's type |
| `RxActions.CreatedActionsMatchTheirCreator` | src/basic-rx/actions.ts:22-24 | `isAction(create(c, p), d)` holds iff the two creators have the same type |
| `RxActions.OnAction` | src/basic-rx/actions.ts:26-38 | Keeps exactly the actions matching one of the creators, never more than given |
| `RxActions.OnActionAppend` | src/basic-rx/actions.ts:28-36 | Filtering preserves order: it distributes over concatenation |
| `RxActions.OnSingleAction` | src/basic-rx/actions.ts:33 | With one creator, exactly the actions of that creator pass |
| `RxReducer.BaseStateReducer` | src/basic-rx/reducer.ts:8 | A null or undefined change, or the state itself, returns the state unchanged |
| `RxReducer.BaseStateReducerLookup` | src/basic-rx/reducer.ts:10-13 | Otherwise every key of the change overrides, and every other key keeps the state's value |
| `RxReducer.IdentityShortcutAgrees` | src/basic-rx/reducer.ts:8-13 | The identity shortcut returns what the spread would produce anyway |
| `RxReducer.RootFoldLookup` | src/basic-rx/reducer.ts:21-28 | Each key reduced holds its branch reducer's result on the old sub-state; other keys keep their value |
| `RxReducer.RootFoldKeys` | src/basic-rx/reducer.ts:21-28 | The fold keeps the state's keys |
| `RxReducer.RootReducer` | src/basic-rx/reducer.ts:19-28 | The root reducer returns an object with exactly the keys of the state, in the same order |
| `RxReducer.RootReducerBranches` | src/basic-rx/reducer.ts:19-28 | For a non-null action, every key of the result is its branch reducer applied to the old sub-state |
| `RxReducer.RootFoldUnchanged` | src/basic-rx/reducer.ts:21-28 | If no branch changes its sub-state, the fold returns the very same state |
| `RxReducer.RootReducerKeepsState` | src/basic-rx/reducer.ts:20-28 | A null action, or one no branch reacts to, returns the very same state |
| `RxState.StoreInitAction` | src/basic-rx/state.ts:6 | The store-init action has type `basic-rx/store-init` |
| `RxState.Scan` | src/basic-rx/state.ts:22 | One state per action, none before the first |
| `RxState.ScanFolds` | src/basic-rx/state.ts:16-24 | The n-th state is the reducer's left fold over the first n actions from the initial state |
| `RxState.ScanSteps` | src/basic-rx/state.ts:22 | Each state is the reducer applied to the previous state and the next action |
| `RxState.StateStream.constructor` | src/basic-rx/state.ts:8-31 | A new stream has no actions, no states and is not stopped |
| `RxState.StateStream.StateAction` | src/basic-rx/state.ts:12-14 | Before stopping, appends the action and the next folded state; after stopping, nothing changes |
| `RxState.StateStream.Stop` | src/basic-rx/state.ts:20 | Stops the stream |
| `RxState.StateStream.Current` | src/basic-rx/state.ts:23 | No state before the first action; otherwise the fold over all actions |
| `RxSideEffect.Outputs` | src/basic-rx/sideEffect.ts:18-26 | A non-dispatching effect outputs nothing; an erroring effect outputs only what it emitted before the error |
| `RxSideEffect.Merged` | src/basic-rx/sideEffect.ts:33 | Each effect stays alive iff it was alive and did not error |
| `RxSideEffect.SilentEffectsAddNothing` | src/basic-rx/sideEffect.ts:26-33 | If every live effect is non-dispatching, the merge emits nothing |
| `RxSideEffect.SideEffects.constructor` | src/basic-rx/sideEffect.ts:9-11 | The log starts with the store-init action; no effects |
| `RxSideEffect.SideEffects.DispatchAction` | src/basic-rx/sideEffect.ts:13-15 | Appends the action to the log |
| `RxSideEffect.SideEffects.AddSideEffect` | src/basic-rx/sideEffect.ts:17-30 | Appends one effect and keeps all earlier ones |
| `RxSideEffect.SideEffects.Current` | src/basic-rx/sideEffect.ts:9-10 | The current action is a logged one; initially the store-init action |
| `RxStore.StoreReducerKeepsShape` | src/basic-rx/index.ts:17 | The store's reducer, `createRootReducer(reducerMap)` on a state whose keys all have a reducer, returns a state with the same keys, so every reduced state can be reduced again |
| `RxStore.Guarded` | src/basic-rx/index.ts:43 | Exactly the values that are objects with a string `type` pass |
| `RxStore.Store.constructor` | src/basic-rx/index.ts:15-20 | A new store is not initialised or stopped, its state stream is empty and its log holds the store-init action |
| `RxStore.Store.Deliver` | src/basic-rx/index.ts:42-47 | A guarded action reaches the reducer; the effects' guarded outputs join the queue |
| `RxStore.Store.DispatchAction` | src/basic-rx/index.ts:66-71 | Appends to the log; only between `initState` and `stopState` does the action reach the reducer (when it looks like an action; otherwise the state's actions are unchanged) and the effects: their guarded outputs queue and the effects that fail on it are no longer subscribed |
| `RxStore.Store.Step` | src/basic-rx/index.ts:66-71 | The next queued effect output is dispatched and reduced, its own outputs queue behind, and the effects that fail on it are no longer subscribed |
| `RxStore.Store.InitState` | src/basic-rx/index.ts:84-86 | Only the first call before stopping delivers the current action; later calls change nothing |
| `RxStore.Store.StopState` | src/basic-rx/index.ts:88-90 | Stops everything; no queued output is forwarded and no state changes |
| `RxStore.Store.AddSideEffect` | src/basic-rx/sideEffect.ts:17-30 | Appends the effect; while running, all effects are resubscribed on the current action |
| `RxStore.Store.Select` | src/basic-rx/index.ts:92-94 | One projected value per state, each the projection of that state |
| `AppState.SpreadThreeLookup` | src/state/reducers.ts:11-16 | Spreading three distinct keys onto an object sets exactly those keys |
| `AppState.SettingsReducer` | src/state/reducers.ts:8-19 | A null action, or any action but `load-settings`, returns the same state |
| `AppState.SettingsReducerLoads` | src/state/reducers.ts:10-16 | On `load-settings`, `controller`, `deconz` and `mqtt` become the overlay of the loaded group on the old one; other keys stay |
| `AppState.ServiceReducer` | src/state/reducers.ts:21-40 | A null action, or one of none of the three handled types, returns the same state |
| `AppState.ServiceReducerChangesOneKey` | src/state/reducers.ts:23-37 | `update-appstate` changes only `appState`; `update-authstatus` changes only `authStatus`; `appstate-settings-loaded` sets `appState` to `settingsLoaded` and nothing else |
| `AppState.ResourcesReducer` | src/state/reducers.ts:42-52 | Every action returns the same state |
| `AppState.AppReducers` | src/state/index.ts:11-15 | The reducer map has exactly the branches `service`, `settings` and `resources` |
| `EnvParsers.StringEnvVal` | src/app/settings.ts:12-14 | The prefixed variable's value if set and non-empty, else the default |
| `EnvParsers.HomieIdEnvVal` | src/app/settings.ts:16-22 | Succeeds iff the value read is a homie id; otherwise throws `[<val>] is not a valid homie-id` |
| `EnvParsers.TrimStart` | src/app/settings.ts:47 | `parseInt` skips a suffix-preserving prefix of whitespace and stops at a non-space |
| `EnvParsers.DigitPrefix` | src/app/settings.ts:47 | The digits `parseInt` reads are the longest run of digits at the start |
| `EnvParsers.LeadingNumber` | src/app/settings.ts:47 | A number is read iff the text starts with a digit |
| `EnvParsers.NumeralValue` | src/app/settings.ts:47 | The decimal numeral of n reads back as n |
| `EnvParsers.ParseInt` | src/app/settings.ts:47 | `parseInt` gives `NaN` iff, after leading white space and at most one sign, no digit follows |
| `EnvParsers.ParseIntRoundTrip` | src/app/settings.ts:47 | `parseInt` of an integer's decimal text, followed by a non-digit, gives back the integer |
| `EnvParsers.NumberEnvVal` | src/app/settings.ts:45-49 | The default if unset or empty or not a number; otherwise `parseInt(val, 10)` |
| `EnvParsers.NumberEnvValRoundTrip` | src/app/settings.ts:45-49 | Setting the variable to an integer's text reads back that integer |
| `EnvParsers.BoolEnvVal` | src/app/settings.ts:31-43 | The default if unset or empty; the result differs from the default only for a set value of at most five characters |
| `EnvParsers.BoolEnvValDecides` | src/app/settings.ts:31-43 | For every set value: the result leaves the default iff the value spells the other boolean (`false` in any case or `0` against a true default, `true` in any case or `1` against a false default); any other value, empty included, gives the default |
| `EnvParsers.BoolEnvValIgnoresCase` | src/app/settings.ts:35-37 | Values equal up to case read the same |
| `EnvParsers.LowerOnlyFixesDigits` | src/app/settings.ts:35-37 | `0` and `1` match only themselves, whatever the case |
| `EnvParsers.BoolEnvValRoundTrip` | src/app/settings.ts:31-43 | `true`/`false` in any case, and `1`/`0`, read back as the boolean |
| `EnvParsers.CsvEnvValAsWritten` | src/app/settings.ts:24-29 | As written: the default if the prefixed variable is unset; otherwise throws iff the unprefixed variable is missing |
| `EnvParsers.CsvAsWrittenMissesPrefixedVariable` | src/app/settings.ts:24-29 | With only `SVC_HOSTS` set, the code as written throws a TypeError |
| `EnvParsers.CsvEnvVal` | src/app/settings.ts:24-29 | The default if unset; otherwise comma-free parts whose comma join is the variable's value |
| `Js.Split` | src/app/settings.ts:26 | At least one part, none containing the separator |
| `Js.JoinSplit` | src/app/settings.ts:26 | Joining the parts of a split gives back the text |
| `Js.ToLowerAscii` | src/app/settings.ts:35 | Lower-casing keeps the length and lowers each character |
| `Js.LookupSpread` | src/basic-rx/reducer.ts:10-13 | In `{...a, ...b}` a key of `b` reads `b`'s value and any other key reads `a`'s |
| `Js.Prop` | src/deconz/DeconzEvents.ts:160 | Optional chaining: a non-object reads `undefined`, and an object reads `undefined` iff the key is missing or undefined |
| `AppSettings.ReadSettings` | src/app/settings.ts:56-75 | Succeeds iff the controller id is a homie id; the `deconz` and `mqtt` groups and the `ctrlId` are read from the environment |
| `AppSettings.SettingsEffectOutputs` | src/app/settings.ts:53-78 | Only store-init triggers; it then emits exactly `load-settings` with the settings and then `appstate-settings-loaded`, or errors on an invalid id |
| `AppSettings.SettingsDefaults` | src/app/settings.ts:58-74 | With an empty environment: `hc-deconz2homie-1`, port 80, wsPort 8080, not secure, wait 20, topic root `homie` |
| `AppSettings.SetupSettingsSideEffects` | src/app/settings.ts:52-81 | Registers the settings effect, dispatching |
| `AppSettings.AppReducerBranches` | src/state/index.ts:11-17 | The application store's reducer keeps the three keys and applies each branch reducer |
| `AppSettings.StoreInitKeepsInitialState` | src/state/state.ts:8-50 | The store-init action leaves the initial application state as it is |
| `AppSettings.LoadSettingsStep` | src/state/reducers.ts:10-16 | `load-settings` overlays the loaded `deconz` group and leaves the service state alone |
| `AppSettings.LoadedDeconz` | src/state/reducers.ts:14 | The loaded `deconz` group is overlaid on the current one |
| `AppSettings.SettingsLoadedStep` | src/state/reducers.ts:33-37 | `appstate-settings-loaded` sets `settingsLoaded`, keeps `authStatus` and leaves the settings alone |
| `AppSettings.SettingsReachState` | src/app/settings.ts:77 | After the effect's two actions, the state reads `settingsLoaded`, `authStatus` is unchanged and the loaded `deconz` is overlaid |
| `AppAuth.AuthEffectOutputs` | src/app/deconzAuthentication.ts:18-31 | Only `appstate-settings-loaded` before destroy triggers; a settled check yields exactly one `update-authstatus`, `failed` for false and `authenticated` for true; a rejected check errors |
| `AppAuth.AuthStatusReachesState` | src/state/reducers.ts:28-32 | The status action sets the service's `authStatus` and nothing else |
| `AppAuth.SetupAuthenticationSideEffects` | src/app/deconzAuthentication.ts:17-34 | Registers the authentication effect, dispatching |
| `CoreSettings.ReadSettings` | src/core/Settings.ts:56-79 | Succeeds iff the controller id is a homie id; `mqttOpts` copies the four MQTT fields; ports and `secure` are read with defaults 443, 80 and false |
| `CoreSettings.SettingsDefaults` | src/core/Settings.ts:58-78 | With an empty environment: wsPort 443, port 80, not secure, host `localhost`, mqttOpts topic root `homie` |
| `CoreSettings.InvalidControllerIdThrows` | src/core/Settings.ts:12-18 | An invalid controller id throws, naming the id |

## Left out

- Object identity is modelled as value equality. `createRootReducer` returns the very same state object when no branch changes it; the model states equality of values. The branch reducers are functions, so they are pure, and calling them twice (src/basic-rx/reducer.ts:22,24) is harmless.
- Asynchrony and real time are not modelled:
  - `bufferTime(750)`, `delay(2000)`, `setTimeout` and the queue scheduler's interleaving are explicit step methods instead;
  - `switchMap` cancellation of a running create is not modelled;
  - two creates under the same id that overlap in time are not modelled. Creates are atomic in the model.
- `dev.create()`, `onInit` and `onDestroy` of devices are external and not modelled. The registry trace records their order: remove, destroy, add, initialise. A failing create is one that yields no device.
- Whether MQTT is connected is a parameter of `CreateSensorDevice`.
- `DictionaryStore` is modelled as an association list keyed by MAC. It raises `add` for a new key and `update` otherwise; its other event names and its copy semantics are not modelled.
- The Homie smarthome type constants are placeholder strings that are distinct from one another; only their distinctness matters.
- `createGroup` requires a `lights` array, as its type demands; a group resource without one would throw in the source.
- `SensorCollator.SensorRessourceCollator.Insert`: the definition must be absent or carry a string `uniqueid`, as its type demands.
- Spreading a string or an array into an object is not modelled. Only object overlays occur in the core.
- Socket options with an explicit `undefined` value are not modelled; an option is either present with a value or absent.
- `DeconzSocket.DeconzSocket.constructor`: the auto-connect in the constructor assumes that creating the WebSocket succeeds.
- `WebSocket`'s ready state, the `error`-listener count and `JSON.parse` results are parameters.
- `Controller.Controller.OnCollationEvent`: it does not restate the registry trace, which `CreateSensor` states.
- `RxSideEffect.SideEffects.Current`: it states only that the current action is a logged one; the body returns the latest.
- The reconnecting `DeconzWebSocket` stream used by src/Controller.ts:111 is not in the source shown. Only its error counter, the `changed` filter and the `stopping` guard are modelled.
- `isHomieID` is a predicate parameter.
- The service namespace prefix of every environment variable is the parameter `ns`.
- `parseInt` is modelled on unbounded integers. The loss of precision beyond 2^53 and the value `-0` are not modelled. `toLowerCase` is modelled for ASCII only, which decides `true`/`false` the same way.
- A `load-settings` action without `props.settings` throws in the source. The model reads `undefined` there, so the overlay changes nothing.
- `withLatestFrom` in the authentication effect is assumed always to have a state, since the store emits one before settings load. The selected settings are not used.
- The token check's outcome and the destroy signal are fixed per effect instance. Each effect is a function of the action it sees: it emits a list, or it errors after emitting a prefix.
- `Settings` constructor arguments other than the defaults are not modelled, since the application never passes any.
- `apiCall` in src/deconz/index.ts is a thin axios wrapper and is not part of this model.
- src/app/ressourceUpdates.ts is dead code and is not part of this model.
- `RxActions.IsAction`: for a `null` or `undefined` action the source reads `action.type` and throws a TypeError; the model answers false instead. The store forwards only values that are objects with a string `type`, so no such action reaches it.
- JavaScript enumerates integer-like property keys in ascending numeric order, before all other keys. The model keeps insertion order, so the `lights` and `groups` lists that `Controller.Controller.OnSnapshot` walks are assumed to be in the order `Object.entries` gives.
- `DeconzApi.TokenVerdict`: a non-client error that carries its own `toJSON` method would reject with the configuration message; the model's `OtherError` stands for an error without one.
- Excluded because they are floating point, external wiring, clock-dependent or I/O:
  - colour arithmetic;
  - the concrete device and node classes;
  - src/lib/Util.ts;
  - src/service.ts, src/App.ts and src/core/Core.ts;
  - logging;
  - the `process.kill` paths.

## Findings

| source | as written | input that shows it | evidently intended | confidence | as-written member | corrected member |
|---|---|---|---|---|---|---|
| src/deconzhomie/SensorDevice.ts:43-47 | an accepted rename sets the name to `message.attr?.name`, but the filter has just required `attr` to be falsy, so the name becomes `undefined` | `{e: "changed", r: "sensors", id: "7", name: "Hall"}` for a device with endpoint id `7` named `Sensor 7` | set the name to `message.name`, the field the filter checked | high (not executed) | `SensorDevices.RenamedToAsWritten` | `SensorDevices.RenamedTo` |
| src/app/settings.ts:24-29 | tests `<ns>_<name>` but splits `process.env[name]`, the unprefixed variable | only `SVC_HOSTS=a,b` set, namespace `SVC`, name `HOSTS`: throws a TypeError instead of returning `["a", "b"]` | split the prefixed variable that was tested | high (not executed) | `EnvParsers.CsvEnvValAsWritten` | `EnvParsers.CsvEnvVal` |
