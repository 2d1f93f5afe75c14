/** The bridge controller (src/Controller.ts): it keeps the registry of Homie
    devices, replacing a device whenever one with the same id is created
    again, fans a gateway snapshot out into device creations, turns collation
    events into sensor devices, and guards the event stream's reconnects. */
module Controller {
  import opened Js
  import opened SensorCollator
  import opened Group
  import opened DeviceFactory

  /** What happens to registered devices, in order. */
  datatype RegistryStep = Removed(id: string) | Destroyed(id: string) | Added(id: string) | Initialised(id: string)

  /** The device manager holds at most one device per id. */
  ghost predicate UniqueIds(ds: seq<NewDevice>)
  {
    forall i, j :: 0 <= i < j < |ds| ==> ds[i].id != ds[j].id
  }

  /** `dm.hasDevice(id)` */
  predicate HasDevice(ds: seq<NewDevice>, id: string)
  {
    exists i :: 0 <= i < |ds| && ds[i].id == id
  }

  /** `dm.removeDevice(id)`: every other device stays, in order. */
  function RemoveDevice(ds: seq<NewDevice>, id: string): (r: seq<NewDevice>)
    ensures forall d :: d in r <==> d in ds && d.id != id
    ensures |r| <= |ds|
  {
    if ds == [] then []
    else if ds[0].id == id then RemoveDevice(ds[1..], id)
    else [ds[0]] + RemoveDevice(ds[1..], id)
  }

  /** The registry after one create: nothing changes when the factory made no
      device; otherwise an existing device with the new id is removed first,
      then the new device is added. */
  function Register(ds: seq<NewDevice>, created: Option<NewDevice>): (r: seq<NewDevice>)
    ensures created.None? ==> r == ds
    ensures created.Some? ==> |r| > 0 && r[|r| - 1] == created.value && |r| <= |ds| + 1
  {
    match created
    case None => ds
    case Some(d) => (if HasDevice(ds, d.id) then RemoveDevice(ds, d.id) else ds) + [d]
  }

  /** What one create does to the devices, in order: the old device is removed
      and destroyed before the new one is added and initialised. */
  function RegisterSteps(ds: seq<NewDevice>, created: Option<NewDevice>): seq<RegistryStep>
  {
    match created
    case None => []
    case Some(d) => (if HasDevice(ds, d.id) then [Removed(d.id), Destroyed(d.id)] else []) + [Added(d.id), Initialised(d.id)]
  }

  /** A run of independent creates, one after the other. */
  function RegisterAll(ds: seq<NewDevice>, created: seq<Option<NewDevice>>): (r: seq<NewDevice>)
    ensures |r| <= |ds| + |created|
    ensures created != [] && created[|created| - 1].Some? ==> r != [] && r[|r| - 1] == created[|created| - 1].value
  {
    if created == [] then ds else Register(RegisterAll(ds, created[..|created| - 1]), created[|created| - 1])
  }

  function RegisterAllSteps(ds: seq<NewDevice>, created: seq<Option<NewDevice>>): seq<RegistryStep>
  {
    if created == [] then []
    else
      var init := created[..|created| - 1];
      RegisterAllSteps(ds, init) + RegisterSteps(RegisterAll(ds, init), created[|created| - 1])
  }

  /** Replacing by id keeps one device per id: afterwards the new device is
      the only one under its id, and every device with another id is kept. */
  lemma RegisterReplaces(ds: seq<NewDevice>, d: NewDevice)
    requires UniqueIds(ds)
    ensures var r := Register(ds, Some(d));
            && UniqueIds(r)
            && d in r
            && (forall e :: e in r && e.id == d.id ==> e == d)
            && (forall e :: e in ds && e.id != d.id ==> e in r)
            && (forall e :: e in r ==> e == d || e in ds)
  {
    var r := Register(ds, Some(d));
    var kept := if HasDevice(ds, d.id) then RemoveDevice(ds, d.id) else ds;
    assert r == kept + [d];
    assert forall e :: e in kept ==> e in ds && e.id != d.id by {
      if !HasDevice(ds, d.id) {
        forall e | e in kept ensures e.id != d.id {
          var i :| 0 <= i < |ds| && ds[i] == e;
        }
      }
    }
    SubsequenceUnique(ds, kept, d.id);
    forall i, j | 0 <= i < j < |r| ensures r[i].id != r[j].id {
      if j == |r| - 1 {
        assert r[i] in kept;
      } else {
        assert r[i] == kept[i] && r[j] == kept[j];
      }
    }
  }

  /** The devices other than `id` that a removal keeps are still unique by id. */
  lemma {:induction false} SubsequenceUnique(ds: seq<NewDevice>, kept: seq<NewDevice>, id: string)
    requires UniqueIds(ds)
    requires kept == if HasDevice(ds, id) then RemoveDevice(ds, id) else ds
    ensures UniqueIds(kept)
  {
    if HasDevice(ds, id) {
      RemoveKeepsUnique(ds, id);
    }
  }

  lemma {:induction false} RemoveKeepsUnique(ds: seq<NewDevice>, id: string)
    requires UniqueIds(ds)
    ensures UniqueIds(RemoveDevice(ds, id))
  {
    if ds != [] {
      assert UniqueIds(ds[1..]) by {
        forall i, j | 0 <= i < j < |ds[1..]| ensures ds[1..][i].id != ds[1..][j].id {
          assert ds[1..][i] == ds[i + 1] && ds[1..][j] == ds[j + 1];
        }
      }
      RemoveKeepsUnique(ds[1..], id);
      var rest := RemoveDevice(ds[1..], id);
      if ds[0].id != id {
        var r := [ds[0]] + rest;
        forall i, j | 0 <= i < j < |r| ensures r[i].id != r[j].id {
          if i == 0 {
            assert r[j] in rest;
            var k :| 0 <= k < |ds[1..]| && ds[1..][k] == r[j];
            assert ds[k + 1] == r[j];
          } else {
            assert r[i] == rest[i - 1] && r[j] == rest[j - 1];
          }
        }
      }
    }
  }

  /** A run of creates keeps one device per id. */
  lemma {:induction false} RegisterAllUnique(ds: seq<NewDevice>, created: seq<Option<NewDevice>>)
    requires UniqueIds(ds)
    ensures UniqueIds(RegisterAll(ds, created))
  {
    if created != [] {
      RegisterAllUnique(ds, created[..|created| - 1]);
      var last := created[|created| - 1];
      if last.Some? {
        RegisterReplaces(RegisterAll(ds, created[..|created| - 1]), last.value);
      }
    }
  }

  /** Creating twice under one id: the second create removes and destroys the
      first device before adding its own, and only the second remains. */
  lemma CreateTwice(ds: seq<NewDevice>, d1: NewDevice, d2: NewDevice)
    requires UniqueIds(ds) && d1.id == d2.id
    ensures var once := Register(ds, Some(d1));
            && RegisterSteps(once, Some(d2)) == [Removed(d2.id), Destroyed(d2.id), Added(d2.id), Initialised(d2.id)]
            && (forall e :: e in Register(once, Some(d2)) && e.id == d2.id ==> e == d2)
  {
    var once := Register(ds, Some(d1));
    RegisterReplaces(ds, d1);
    assert once[|once| - 1] == d1;
    assert HasDevice(once, d2.id);
    RegisterReplaces(once, d2);
  }

  /** One create after the other, each replacing by id. */
  method RegisterEach(ds0: seq<NewDevice>, created: seq<Option<NewDevice>>) returns (ds: seq<NewDevice>, steps: seq<RegistryStep>)
    requires UniqueIds(ds0)
    ensures UniqueIds(ds)
    ensures ds == RegisterAll(ds0, created) && steps == RegisterAllSteps(ds0, created)
  {
    ds, steps := ds0, [];
    var i := 0;
    while i < |created|
      invariant 0 <= i <= |created|
      invariant ds == RegisterAll(ds0, created[..i]) && steps == RegisterAllSteps(ds0, created[..i])
    {
      assert created[..i + 1][..i] == created[..i];
      var next := created[i];
      if next.Some? {
        var d := next.value;
        if HasDevice(ds, d.id) {
          steps := steps + [Removed(d.id), Destroyed(d.id)];
          ds := RemoveDevice(ds, d.id);
        }
        ds := ds + [d];
        steps := steps + [Added(d.id), Initialised(d.id)];
      }
      i := i + 1;
    }
    assert created[..i] == created;
    RegisterAllUnique(ds0, created);
  }

  /** Two runs of creates in a row are one run. */
  lemma {:induction false} RegisterAllAppend(ds: seq<NewDevice>, a: seq<Option<NewDevice>>, b: seq<Option<NewDevice>>)
    ensures RegisterAll(ds, a + b) == RegisterAll(RegisterAll(ds, a), b)
  {
    if b == [] {
      assert a + b == a;
    } else {
      var b' := b[..|b| - 1];
      assert (a + b)[..|a + b| - 1] == a + b';
      assert (a + b)[|a + b| - 1] == b[|b| - 1];
      RegisterAllAppend(ds, a, b');
    }
  }

  /** The steps of two runs in a row are the steps of the first run, then
      those of the second. */
  lemma {:induction false} RegisterAllStepsAppend(ds: seq<NewDevice>, a: seq<Option<NewDevice>>, b: seq<Option<NewDevice>>)
    ensures RegisterAllSteps(ds, a + b) == RegisterAllSteps(ds, a) + RegisterAllSteps(RegisterAll(ds, a), b)
  {
    if b == [] {
      assert a + b == a;
    } else {
      var b', last := b[..|b| - 1], b[|b| - 1];
      assert (a + b)[..|a + b| - 1] == a + b';
      assert (a + b)[|a + b| - 1] == last;
      RegisterAllStepsAppend(ds, a, b');
      RegisterAllAppend(ds, a, b');
      var mid := RegisterAll(ds, a);
      var x, y, z := RegisterAllSteps(ds, a), RegisterAllSteps(mid, b'), RegisterSteps(RegisterAll(mid, b'), last);
      assert RegisterAllSteps(ds, a + b) == RegisterAllSteps(ds, a + b') + RegisterSteps(RegisterAll(ds, a + b'), last);
      assert RegisterAllSteps(ds, a + b) == x + y + z;
      assert RegisterAllSteps(mid, b) == y + z;
      StepsAssoc(x, y, z);
    }
  }

  /** A proof-cost helper, not a fact about the source: associativity of
      the trace concatenation, stated once so `RegisterAllStepsAppend` stays
      small. */
  lemma StepsAssoc(x: seq<RegistryStep>, y: seq<RegistryStep>, z: seq<RegistryStep>)
    ensures x + y + z == x + (y + z)
  {
  }

  /** Creating the same batch again changes nothing: every device it creates
      replaces its own earlier copy, so the registry is a fixed point. */
  lemma RegisterAllIdempotent(ds: seq<NewDevice>, a: seq<Option<NewDevice>>)
    ensures RegisterAll(RegisterAll(ds, a), a) == RegisterAll(ds, a)
  {
    var c, own := CreatedIds(a), RegisterAll([], a);
    RegisterAllSplits(ds, a);
    RegisterAllSplits(RegisterAll(ds, a), a);
    WithoutIdsAppend(WithoutIds(ds, c), own, c);
    WithoutIdsTwice(ds, c);
    CreatedAreNamed(a);
    WithoutAllIds(own, c);
    assert WithoutIds(ds, c) + [] == WithoutIds(ds, c);
  }

  /** The devices whose id is not in `ids`, in order. */
  function WithoutIds(ds: seq<NewDevice>, ids: set<string>): seq<NewDevice>
  {
    if ds == [] then []
    else if ds[0].id in ids then WithoutIds(ds[1..], ids)
    else [ds[0]] + WithoutIds(ds[1..], ids)
  }

  /** The ids of the devices a batch creates. */
  function CreatedIds(created: seq<Option<NewDevice>>): set<string>
  {
    if created == [] then {}
    else
      var last := created[|created| - 1];
      CreatedIds(created[..|created| - 1]) + (if last.Some? then {last.value.id} else {})
  }

  /** A batch of creates keeps the old devices it does not replace, in order,
      followed by what the batch alone would register. */
  lemma {:induction false} RegisterAllSplits(ds: seq<NewDevice>, a: seq<Option<NewDevice>>)
    ensures RegisterAll(ds, a) == WithoutIds(ds, CreatedIds(a)) + RegisterAll([], a)
  {
    if a == [] {
      WithoutNoIds(ds);
    } else {
      var init, last := a[..|a| - 1], a[|a| - 1];
      RegisterAllSplits(ds, init);
      assert RegisterAll(ds, a) == Register(RegisterAll(ds, init), last);
      assert RegisterAll([], a) == Register(RegisterAll([], init), last);
      if last.Some? {
        assert CreatedIds(a) == CreatedIds(init) + {last.value.id};
        SplitStep(ds, CreatedIds(init), RegisterAll([], init), last.value);
      } else {
        assert CreatedIds(a) == CreatedIds(init);
      }
    }
  }

  /** `RegisterAllSplits` for one more create. */
  lemma SplitStep(ds: seq<NewDevice>, ids: set<string>, own: seq<NewDevice>, d: NewDevice)
    ensures Register(WithoutIds(ds, ids) + own, Some(d)) == WithoutIds(ds, ids + {d.id}) + Register(own, Some(d))
  {
    var kept := WithoutIds(ds, ids);
    RegisterAppends(kept + own, d);
    RegisterAppends(own, d);
    RemoveAppend(kept, own, d.id);
    RemoveFromWithout(ds, ids, d.id);
    assert RemoveDevice(kept, d.id) + RemoveDevice(own, d.id) + [d]
        == RemoveDevice(kept, d.id) + (RemoveDevice(own, d.id) + [d]);
  }

  /** One create removes any device with the new id, then adds the new one. */
  lemma RegisterAppends(ds: seq<NewDevice>, d: NewDevice)
    ensures Register(ds, Some(d)) == RemoveDevice(ds, d.id) + [d]
  {
    if !HasDevice(ds, d.id) {
      RemoveAbsent(ds, d.id);
    }
  }

  lemma {:induction false} RemoveAbsent(ds: seq<NewDevice>, id: string)
    requires !HasDevice(ds, id)
    ensures RemoveDevice(ds, id) == ds
  {
    if ds != [] {
      RemoveAbsent(ds[1..], id);
      assert ds[0].id != id;
      assert ds == [ds[0]] + ds[1..];
    }
  }

  lemma {:induction false} RemoveAppend(x: seq<NewDevice>, y: seq<NewDevice>, id: string)
    ensures RemoveDevice(x + y, id) == RemoveDevice(x, id) + RemoveDevice(y, id)
  {
    if x == [] {
      assert x + y == y;
    } else {
      assert (x + y)[0] == x[0] && (x + y)[1..] == x[1..] + y;
      RemoveAppend(x[1..], y, id);
    }
  }

  lemma {:induction false} RemoveFromWithout(ds: seq<NewDevice>, ids: set<string>, id: string)
    ensures RemoveDevice(WithoutIds(ds, ids), id) == WithoutIds(ds, ids + {id})
  {
    if ds != [] {
      RemoveFromWithout(ds[1..], ids, id);
      if ds[0].id !in ids {
        var w := WithoutIds(ds[1..], ids);
        assert ([ds[0]] + w)[0] == ds[0] && ([ds[0]] + w)[1..] == w;
      }
    }
  }

  lemma {:induction false} WithoutNoIds(ds: seq<NewDevice>)
    ensures WithoutIds(ds, {}) == ds
  {
    if ds != [] {
      WithoutNoIds(ds[1..]);
      assert ds == [ds[0]] + ds[1..];
    }
  }

  lemma {:induction false} WithoutIdsAppend(x: seq<NewDevice>, y: seq<NewDevice>, ids: set<string>)
    ensures WithoutIds(x + y, ids) == WithoutIds(x, ids) + WithoutIds(y, ids)
  {
    if x == [] {
      assert x + y == y;
    } else {
      assert (x + y)[0] == x[0] && (x + y)[1..] == x[1..] + y;
      WithoutIdsAppend(x[1..], y, ids);
    }
  }

  lemma {:induction false} WithoutIdsTwice(ds: seq<NewDevice>, ids: set<string>)
    ensures WithoutIds(WithoutIds(ds, ids), ids) == WithoutIds(ds, ids)
  {
    if ds != [] {
      WithoutIdsTwice(ds[1..], ids);
      if ds[0].id !in ids {
        var w := WithoutIds(ds[1..], ids);
        assert ([ds[0]] + w)[0] == ds[0] && ([ds[0]] + w)[1..] == w;
      }
    }
  }

  lemma {:induction false} WithoutAllIds(ds: seq<NewDevice>, ids: set<string>)
    requires forall e :: e in ds ==> e.id in ids
    ensures WithoutIds(ds, ids) == []
  {
    if ds != [] {
      assert ds[0] in ds;
      WithoutAllIds(ds[1..], ids);
    }
  }

  /** Every device a batch registers on its own has an id the batch creates. */
  lemma {:induction false} CreatedAreNamed(a: seq<Option<NewDevice>>)
    ensures forall e :: e in RegisterAll([], a) ==> e.id in CreatedIds(a)
  {
    if a != [] {
      CreatedAreNamed(a[..|a| - 1]);
    }
  }

  /** Only `add` and `update` store events create sensor devices. */
  predicate IsCreateTrigger(event: StoreEvent)
  {
    event.name == "add" || event.name == "update"
  }

  /** The controller's `filter(msg => msg.e === "changed")` on the event stream. */
  function ChangedOnly(messages: seq<JsValue>): (r: seq<JsValue>)
    ensures |r| <= |messages|
    ensures forall m :: m in r <==> m in messages && Prop(m, "e") == Str("changed")
  {
    if messages == [] then []
    else
      var rest := ChangedOnly(messages[1..]);
      assert forall m :: m in messages <==> m == messages[0] || m in messages[1..];
      if Prop(messages[0], "e") == Str("changed") then [messages[0]] + rest else rest
  }

  /** The filter keeps the order of the messages it lets through. */
  lemma {:induction false} ChangedOnlyAppend(a: seq<JsValue>, b: seq<JsValue>)
    ensures ChangedOnly(a + b) == ChangedOnly(a) + ChangedOnly(b)
  {
    if a != [] {
      var m, a' := a[0], a[1..];
      assert a == [m] + a';
      assert a + b == [m] + (a' + b);
      ChangedOnlyCons(m, a');
      ChangedOnlyCons(m, a' + b);
      ChangedOnlyAppend(a', b);
    } else {
      assert a + b == b;
    }
  }

  lemma ChangedOnlyCons(m: JsValue, rest: seq<JsValue>)
    ensures ChangedOnly([m] + rest) == (if Prop(m, "e") == Str("changed") then [m] else []) + ChangedOnly(rest)
  {
    assert ([m] + rest)[1..] == rest;
  }

  const ReconnectDelay: nat := 2000

  class Controller {
    const factory: DeviceFactory
    const collation: SensorRessourceCollator
    /** The device manager's devices. */
    var devices: seq<NewDevice>
    var trace: seq<RegistryStep>
    /** Reasons of the creates that failed and were logged. */
    var errors: seq<string>
    var stopping: bool
    /** The reconnect counter of the event stream. */
    var counter: nat
    /** How often the event stream has been subscribed. */
    var subscriptions: nat

    ghost predicate Valid()
      reads this, factory, collation
    {
      factory.Valid() && collation.Valid() && UniqueIds(devices)
    }

    constructor(factory: DeviceFactory, collation: SensorRessourceCollator)
      requires factory.Valid() && collation.Valid()
      ensures Valid() && this.factory == factory && this.collation == collation
      ensures devices == [] && trace == [] && errors == [] && !stopping && counter == 0 && subscriptions == 0
    {
      this.factory := factory;
      this.collation := collation;
      devices := [];
      trace := [];
      errors := [];
      stopping := false;
      counter := 0;
      subscriptions := 0;
    }

    /** The common tail of `createSensor`, `createLight` and `createLightGroup`. */
    method AddOrReplace(created: Option<NewDevice>)
      requires Valid()
      modifies this`devices, this`trace
      ensures Valid()
      ensures devices == Register(old(devices), created)
      ensures trace == old(trace) + RegisterSteps(old(devices), created)
    {
      if created.None? {
        return;
      }
      var device := created.value;
      RegisterReplaces(devices, device);
      if HasDevice(devices, device.id) {
        devices := RemoveDevice(devices, device.id);
        trace := trace + [Removed(device.id), Destroyed(device.id)];
      }
      devices := devices + [device];
      trace := trace + [Added(device.id), Initialised(device.id)];
    }

    /** `createLight` */
    method CreateLight(id: string, light: JsValue)
      requires Valid()
      modifies this`devices, this`trace
      ensures Valid()
      ensures devices == Register(old(devices), factory.CreateLightDevice(light, id))
      ensures trace == old(trace) + RegisterSteps(old(devices), factory.CreateLightDevice(light, id))
    {
      AddOrReplace(factory.CreateLightDevice(light, id));
    }

    /** `createLightGroup` */
    method CreateLightGroup(id: string, group: Group)
      requires Valid()
      modifies this`devices, this`trace
      ensures Valid()
      ensures devices == Register(old(devices), factory.CreateLightGroupDevice(group, id))
      ensures trace == old(trace) + RegisterSteps(old(devices), factory.CreateLightGroupDevice(group, id))
    {
      AddOrReplace(factory.CreateLightGroupDevice(group, id));
    }

    /** `createSensor`; a thrown error rejects the create and is logged by the
        caller, leaving the registry as it was. */
    method CreateSensor(sensor: Sensor, mqttConnected: bool)
      requires Valid()
      modifies this`devices, this`trace, this`errors
      ensures Valid()
      ensures var outcome := factory.CreateSensorDevice(sensor, mqttConnected);
              && devices == Register(old(devices), if outcome.Created? then Some(outcome.device) else None)
              && trace == old(trace) + RegisterSteps(old(devices), if outcome.Created? then Some(outcome.device) else None)
              && errors == old(errors) + (if outcome.Thrown? then [outcome.message] else [])
    {
      var outcome := factory.CreateSensorDevice(sensor, mqttConnected);
      match outcome {
        case NoDevice =>
        case Thrown(message) => errors := errors + [message];
        case Created(device) => AddOrReplace(Some(device));
      }
    }

    /** The collation-event subscription: `add` and `update` events create
        the sensor's device, every other event is ignored. */
    method OnCollationEvent(event: StoreEvent, mqttConnected: bool)
      requires Valid()
      modifies this`devices, this`trace, this`errors
      ensures Valid()
      ensures !IsCreateTrigger(event) ==> devices == old(devices) && trace == old(trace) && errors == old(errors)
      ensures IsCreateTrigger(event) ==> var outcome := factory.CreateSensorDevice(event.item, mqttConnected);
              && devices == Register(old(devices), if outcome.Created? then Some(outcome.device) else None)
              && errors == old(errors) + (if outcome.Thrown? then [outcome.message] else [])
    {
      if IsCreateTrigger(event) {
        CreateSensor(event.item, mqttConnected);
      }
    }

    /** The light devices the factory makes for a snapshot's lights, in order. */
    function LightDevices(lights: Assoc<JsValue>): (r: seq<Option<NewDevice>>)
      requires factory.Valid()
      reads factory
      ensures |r| == |lights|
      ensures forall i :: 0 <= i < |lights| ==> r[i] == factory.CreateLightDevice(lights[i].1, lights[i].0)
    {
      if lights == [] then []
      else LightDevices(lights[..|lights| - 1]) + [factory.CreateLightDevice(lights[|lights| - 1].1, lights[|lights| - 1].0)]
    }

    /** The group devices the factory makes for a snapshot's groups, each
        group built against the snapshot's lights. */
    function GroupDevices(groups: Assoc<JsValue>, lights: Assoc<JsValue>): (r: seq<Option<NewDevice>>)
      requires factory.Valid()
      requires forall i :: 0 <= i < |groups| ==> Prop(groups[i].1, "lights").Arr?
      reads factory
      ensures |r| == |groups|
      ensures forall i :: 0 <= i < |groups| ==> r[i] == factory.CreateLightGroupDevice(
                GroupOf(groups[i].1, lights), groups[i].0)
    {
      if groups == [] then []
      else
        var init, last := groups[..|groups| - 1], groups[|groups| - 1];
        var prev := GroupDevices(init, lights);
        var r := prev + [factory.CreateLightGroupDevice(GroupOf(last.1, lights), last.0)];
        assert forall i :: 0 <= i < |groups| ==>
          r[i] == factory.CreateLightGroupDevice(GroupOf(groups[i].1, lights), groups[i].0) by {
          forall i | 0 <= i < |groups|
            ensures r[i] == factory.CreateLightGroupDevice(GroupOf(groups[i].1, lights), groups[i].0)
          {
            if i < |init| {
              assert r[i] == prev[i] && init[i] == groups[i];
            }
          }
        }
        r
    }

    /** The resource snapshot after the socket opens: one independent create
        per light and then per group, whatever became of the others, and every
        sensor handed to the collator. */
    method OnSnapshot(lights: Assoc<JsValue>, groups: Assoc<JsValue>, sensors: Assoc<JsValue>)
      requires Valid()
      requires forall i :: 0 <= i < |groups| ==> Prop(groups[i].1, "lights").Arr?
      requires forall i :: 0 <= i < |sensors| ==> Nullish(sensors[i].1) || HasUniqueId(sensors[i].1)
      modifies this`devices, this`trace, collation
      ensures Valid()
      ensures devices == RegisterAll(old(devices), LightDevices(lights) + GroupDevices(groups, lights))
      ensures trace == old(trace) + RegisterAllSteps(old(devices), LightDevices(lights) + GroupDevices(groups, lights))
      ensures collation.pending == old(collation.pending) + (if collation.subscribed then Enqueued(sensors) else [])
      ensures collation.store == old(collation.store) && collation.subscribed == old(collation.subscribed)
    {
      var created := LightDevices(lights) + GroupDevices(groups, lights);
      var ds, steps := RegisterEach(devices, created);
      devices, trace := ds, trace + steps;
      assert factory.Valid() && UniqueIds(devices);
      collation.InsertMany(sensors);
      assert created == LightDevices(lights) + GroupDevices(groups, lights);
    }

    /** An error on the event stream: the counter goes up by one and the
        retry waits two seconds. */
    method OnStreamError() returns (delayMs: nat)
      modifies this`counter
      ensures counter == old(counter) + 1 && delayMs == ReconnectDelay
    {
      counter := counter + 1;
      delayMs := ReconnectDelay;
    }

    /** `connectEventListener`: subscribes the event stream unless the
        controller is stopping. */
    method ConnectEventListener()
      modifies this`subscriptions
      ensures stopping ==> subscriptions == old(subscriptions)
      ensures !stopping ==> subscriptions == old(subscriptions) + 1
    {
      if stopping {
        return;
      }
      subscriptions := subscriptions + 1;
    }

    /** `onDestroy`: once stopping, no further subscription of the stream. */
    method OnDestroy()
      modifies this`stopping
      ensures stopping
    {
      stopping := true;
    }
  }

  /** The group `createGroup` builds for a snapshot group. */
  function GroupOf(resource: JsValue, lights: Assoc<JsValue>): (g: Group)
    requires Prop(resource, "lights").Arr?
    ensures g.resource == resource
  {
    Group(resource, Brightness(Prop(resource, "lights").items, lights))
  }
}
