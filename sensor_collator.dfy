/** Sensor collation (src/deconzhomie/SensorRessourceCollator.ts). The gateway
    reports every endpoint of a physical sensor (a temperature, a humidity and
    a pressure endpoint of one weather sensor, say) as a separate resource; the
    collator groups them by the device's MAC address, which is the part of the
    endpoint's `uniqueid` before the first `-`, and keeps a MAC-keyed store of
    devices whose endpoint sets only ever grow. */
module SensorCollator {
  import opened Js

  /** One endpoint: the gateway's resource id, the MAC derived from it (if
      any) and the resource itself. */
  datatype SensorDefinition = SensorDefinition(id: string, mac: Option<string>, definition: JsValue)

  /** A device: its MAC and its endpoints, keyed by `uniqueid`. */
  datatype Sensor = Sensor(mac: Option<string>, sensors: Assoc<SensorDefinition>)

  /** Devices keyed by MAC. */
  type Sensors = Assoc<Sensor>

  /** How a store event is named, and the device it carries. */
  datatype StoreEvent = StoreEvent(name: string, item: Sensor)

  /** The property key a MAC becomes; a missing MAC becomes `"undefined"`. */
  function MacKey(mac: Option<string>): string
  {
    if mac.Some? then mac.value else "undefined"
  }

  /** The key an endpoint is filed under: its `uniqueid` as a property key. */
  function UidKey(item: SensorDefinition): string
  {
    ToStr(Prop(item.definition, "uniqueid"))
  }

  predicate HasUniqueId(definition: JsValue)
  {
    Prop(definition, "uniqueid").Str?
  }

  predicate Nullish(v: JsValue)
  {
    v == Undefined || v == Null
  }

  /** `macFromResource` on the resource's `uniqueid`. */
  function MacFromUniqueId(uid: string): (mac: Option<string>)
    ensures mac.Some? ==> mac.value <= uid && '-' !in mac.value
  {
    SplitFirst(uid, '-');
    if ':' in uid && '-' in uid then Some(Split(uid, '-')[0]) else None
  }

  function MacFromResource(definition: JsValue): Option<string>
    requires HasUniqueId(definition)
  {
    MacFromUniqueId(Prop(definition, "uniqueid").s)
  }

  /** A MAC is derived exactly when the `uniqueid` holds both a `:` and a `-`,
      and it is then the text before the first `-`. */
  lemma MacIsTextBeforeFirstDash(uid: string)
    ensures MacFromUniqueId(uid).Some? <==> ':' in uid && '-' in uid
    ensures MacFromUniqueId(uid).Some? ==>
      var mac := MacFromUniqueId(uid).value;
      mac <= uid && '-' !in mac && uid[|mac|] == '-'
  {
    SplitFirst(uid, '-');
  }

  /** `isSensor`: the object, its `mac` and its `sensors` are all truthy. */
  predicate IsSensor(obj: JsValue)
  {
    Truthy(obj) && Truthy(Prop(obj, "mac")) && Truthy(Prop(obj, "sensors"))
  }

  function OptionToJs(mac: Option<string>): JsValue
  {
    if mac.Some? then Str(mac.value) else Undefined
  }

  function DefinitionToJs(d: SensorDefinition): JsValue
  {
    Obj([("id", Str(d.id)), ("mac", OptionToJs(d.mac)), ("definition", d.definition)])
  }

  function DefinitionsToJs(a: Assoc<SensorDefinition>): Assoc<JsValue>
  {
    if a == [] then [] else [(a[0].0, DefinitionToJs(a[0].1))] + DefinitionsToJs(a[1..])
  }

  /** A device as the JavaScript object the store holds. */
  function SensorToJs(s: Sensor): JsValue
  {
    Obj([("mac", OptionToJs(s.mac)), ("sensors", Obj(DefinitionsToJs(s.sensors)))])
  }

  /** A device passes `isSensor` exactly when it has a non-empty MAC: the
      endpoint set is an object, truthy even when empty, so a device grouped
      under the missing MAC is the only kind that fails. */
  lemma IsSensorIffMac(s: Sensor)
    ensures IsSensor(SensorToJs(s)) <==> s.mac.Some? && s.mac.value != ""
  {
    var o := SensorToJs(s);
    assert Prop(o, "mac") == OptionToJs(s.mac);
    assert Keys(o.fields) == ["mac", "sensors"];
    assert Prop(o, "sensors") == Obj(DefinitionsToJs(s.sensors));
  }

  // ---------------------------------------------------------------------------
  // toSensors: grouping one batch by MAC
  // ---------------------------------------------------------------------------

  /** One `forEach` step of `toSensors`. The membership test is
      `Object.keys(result).includes(sensor.mac)`, which never holds for a
      missing MAC, so such an endpoint always starts a fresh device under
      `"undefined"`, replacing any earlier one. */
  function Collate(result: Sensors, item: SensorDefinition): (r: Sensors)
    ensures Lookup(r, MacKey(item.mac)).Some?
    ensures Lookup(Lookup(r, MacKey(item.mac)).value.sensors, UidKey(item)) == Some(item)
  {
    if item.mac.Some? && item.mac.value in Keys(result) then
      var s := Lookup(result, item.mac.value).value;
      var merged := Sensor(s.mac, Put(s.sensors, UidKey(item), item));
      LookupPut(s.sensors, UidKey(item), item, UidKey(item));
      LookupPut(result, item.mac.value, merged, item.mac.value);
      Put(result, item.mac.value, merged)
    else
      var started := Sensor(item.mac, [(UidKey(item), item)]);
      LookupPut(result, MacKey(item.mac), started, MacKey(item.mac));
      Put(result, MacKey(item.mac), started)
  }

  /** Every device is filed under its own MAC key. */
  ghost predicate KeyedByMac(result: Sensors)
  {
    forall i :: 0 <= i < |result| ==> result[i].0 == MacKey(result[i].1.mac)
  }

  /** Every device's endpoints have distinct keys. */
  ghost predicate EndpointsUnique(result: Sensors)
  {
    forall i :: 0 <= i < |result| ==> UniqueKeys(result[i].1.sensors)
  }

  ghost predicate WellFormed(result: Sensors)
  {
    UniqueKeys(result) && KeyedByMac(result) && EndpointsUnique(result)
  }

  /** `toSensors`, as the fold of `Collate` over the batch in order. */
  function GroupByMac(items: seq<SensorDefinition>): (result: Sensors)
    ensures WellFormed(result)
    decreases |items|
  {
    if items == [] then []
    else
      var prev := GroupByMac(items[..|items| - 1]);
      CollateWellFormed(prev, items[|items| - 1]);
      Collate(prev, items[|items| - 1])
  }

  /** Storing `v` under its own key keeps every entry under its own key. */
  lemma {:induction false} PutKeepsShape(a: Sensors, k: string, v: Sensor)
    requires KeyedByMac(a) && EndpointsUnique(a) && k == MacKey(v.mac) && UniqueKeys(v.sensors)
    ensures KeyedByMac(Put(a, k, v)) && EndpointsUnique(Put(a, k, v))
    decreases |a|
  {
    if a != [] && a[0].0 != k {
      PutKeepsShape(a[1..], k, v);
      var p := Put(a, k, v);
      assert p == [a[0]] + Put(a[1..], k, v);
      forall i | 0 < i < |p| ensures p[i].0 == MacKey(p[i].1.mac) && UniqueKeys(p[i].1.sensors) {
        assert p[i] == Put(a[1..], k, v)[i - 1];
      }
    }
  }

  lemma {:induction false} LookupWellFormed(a: Sensors, k: string)
    requires KeyedByMac(a) && EndpointsUnique(a) && k in Keys(a)
    ensures MacKey(Lookup(a, k).value.mac) == k && UniqueKeys(Lookup(a, k).value.sensors)
  {
    var s := Lookup(a, k).value;
    var i :| 0 <= i < |a| && a[i] == (k, s);
  }

  lemma {:induction false} CollateWellFormed(result: Sensors, item: SensorDefinition)
    requires WellFormed(result)
    ensures WellFormed(Collate(result, item))
  {
    if item.mac.Some? && item.mac.value in Keys(result) {
      var m := item.mac.value;
      LookupWellFormed(result, m);
      var s := Lookup(result, m).value;
      PutUnique(s.sensors, UidKey(item), item);
      PutKeepsShape(result, m, Sensor(s.mac, Put(s.sensors, UidKey(item), item)));
    } else {
      PutKeepsShape(result, MacKey(item.mac), Sensor(item.mac, [(UidKey(item), item)]));
    }
    PutUnique(result, MacKey(item.mac), Sensor(item.mac, [(UidKey(item), item)]));
    if item.mac.Some? && item.mac.value in Keys(result) {
      var s := Lookup(result, item.mac.value).value;
      PutUnique(result, item.mac.value, Sensor(s.mac, Put(s.sensors, UidKey(item), item)));
    }
  }

  /** The reference: the endpoints of the batch that carry MAC `m`, filed by
      `uniqueid` in batch order, a later endpoint replacing an earlier one
      with the same `uniqueid`. */
  function Endpoints(items: seq<SensorDefinition>, m: string): Assoc<SensorDefinition>
    decreases |items|
  {
    if items == [] then []
    else
      var prev := Endpoints(items[..|items| - 1], m);
      var last := items[|items| - 1];
      if last.mac == Some(m) then Put(prev, UidKey(last), last) else prev
  }

  lemma PutNonEmpty<V>(a: Assoc<V>, k: string, v: V)
    ensures Put(a, k, v) != []
  {
  }

  /** `toSensors` against the reference: under a real MAC `m` it files
      exactly the batch's endpoints with that MAC, and there is no device
      under `m` when the batch has none. */
  lemma {:induction false} GroupByMacFilesByMac(items: seq<SensorDefinition>, m: string)
    requires m != "undefined"
    ensures Lookup(GroupByMac(items), m) ==
      if Endpoints(items, m) == [] then None else Some(Sensor(Some(m), Endpoints(items, m)))
    decreases |items|
  {
    if items != [] {
      var p := items[..|items| - 1];
      var x := items[|items| - 1];
      GroupByMacFilesByMac(p, m);
      var g := GroupByMac(p);
      assert GroupByMac(items) == Collate(g, x);
      if x.mac == Some(m) {
        PutNonEmpty(Endpoints(p, m), UidKey(x), x);
        if m in Keys(g) {
          var s := Lookup(g, m).value;
          LookupPut(g, m, Sensor(s.mac, Put(s.sensors, UidKey(x), x)), m);
        } else {
          LookupPut(g, m, Sensor(x.mac, [(UidKey(x), x)]), m);
        }
      } else if x.mac.Some? && x.mac.value in Keys(g) {
        var s := Lookup(g, x.mac.value).value;
        LookupPut(g, x.mac.value, Sensor(s.mac, Put(s.sensors, UidKey(x), x)), m);
      } else {
        LookupPut(g, MacKey(x.mac), Sensor(x.mac, [(UidKey(x), x)]), m);
      }
    }
  }

  /** The last endpoint of the batch without a MAC, if any. */
  function LastWithoutMac(items: seq<SensorDefinition>): Option<SensorDefinition>
    decreases |items|
  {
    if items == [] then None
    else if items[|items| - 1].mac.None? then Some(items[|items| - 1])
    else LastWithoutMac(items[..|items| - 1])
  }

  /** Endpoints without a MAC do not accumulate: the device under
      `"undefined"` holds only the last of them (unless some endpoint's MAC
      is literally `undefined`). */
  lemma {:induction false} GroupByMacKeepsLastWithoutMac(items: seq<SensorDefinition>)
    requires forall i :: 0 <= i < |items| ==> items[i].mac != Some("undefined")
    ensures Lookup(GroupByMac(items), "undefined") ==
      match LastWithoutMac(items)
      case None => None
      case Some(x) => Some(Sensor(None, [(UidKey(x), x)]))
    decreases |items|
  {
    if items != [] {
      var p := items[..|items| - 1];
      var x := items[|items| - 1];
      GroupByMacKeepsLastWithoutMac(p);
      var g := GroupByMac(p);
      assert GroupByMac(items) == Collate(g, x);
      if x.mac.Some? && x.mac.value in Keys(g) {
        var s := Lookup(g, x.mac.value).value;
        LookupPut(g, x.mac.value, Sensor(s.mac, Put(s.sensors, UidKey(x), x)), "undefined");
      } else {
        LookupPut(g, MacKey(x.mac), Sensor(x.mac, [(UidKey(x), x)]), "undefined");
      }
    }
  }

  /** `toSensors`: the `forEach` loop filling `result`. */
  method ToSensors(items: seq<SensorDefinition>) returns (result: Sensors)
    ensures result == GroupByMac(items)
  {
    result := [];
    var i := 0;
    while i < |items|
      invariant 0 <= i <= |items|
      invariant result == GroupByMac(items[..i])
    {
      assert items[..i + 1][..i] == items[..i];
      var item := items[i];
      if item.mac.Some? && item.mac.value in Keys(result) {
        var s := Lookup(result, item.mac.value).value;
        result := Put(result, item.mac.value, Sensor(s.mac, Put(s.sensors, UidKey(item), item)));
      } else {
        result := Put(result, MacKey(item.mac), Sensor(item.mac, [(UidKey(item), item)]));
      }
      i := i + 1;
    }
    assert items[..i] == items;
  }

  // ---------------------------------------------------------------------------
  // insertRessources: merging a batch into the store
  // ---------------------------------------------------------------------------

  /** The device stored for a batch entry: a MAC already stored gets its old
      endpoints overlaid with the new ones; a new MAC is stored as grouped. */
  function MergeOne(stored: Option<Sensor>, s: Sensor): Sensor
  {
    if stored.Some? then Sensor(s.mac, Spread(stored.value.sensors, s.sensors)) else s
  }

  /** One step of the loop: `hasId(mac)` decides the merge, and `addOrUpdate`
      files the result under its own MAC. */
  function MergeEntry(store: Sensors, e: (string, Sensor)): Sensors
  {
    Put(store, MacKey(e.1.mac), MergeOne(Lookup(store, e.0), e.1))
  }

  function EntryEvent(store: Sensors, e: (string, Sensor)): StoreEvent
  {
    StoreEvent(if MacKey(e.1.mac) in Keys(store) then "update" else "add", MergeOne(Lookup(store, e.0), e.1))
  }

  /** The store after merging the entries of `batch` in order. */
  function MergeBatch(store: Sensors, batch: Sensors): (r: Sensors)
    ensures |store| <= |r| <= |store| + |batch|
    decreases |batch|
  {
    if batch == [] then store
    else
      var prev, e := MergeBatch(store, batch[..|batch| - 1]), batch[|batch| - 1];
      KeysPut(prev, MacKey(e.1.mac), MergeOne(Lookup(prev, e.0), e.1));
      MergeEntry(prev, e)
  }

  /** The store events the merge produces, one per batch entry. */
  function MergeEvents(store: Sensors, batch: Sensors): seq<StoreEvent>
    decreases |batch|
  {
    if batch == [] then []
    else
      var p := batch[..|batch| - 1];
      MergeEvents(store, p) + [EntryEvent(MergeBatch(store, p), batch[|batch| - 1])]
  }

  lemma MergeStep(store: Sensors, batch: Sensors, i: nat)
    requires i < |batch|
    ensures MergeBatch(store, batch[..i + 1]) == MergeEntry(MergeBatch(store, batch[..i]), batch[i])
    ensures MergeEvents(store, batch[..i + 1]) ==
      MergeEvents(store, batch[..i]) + [EntryEvent(MergeBatch(store, batch[..i]), batch[i])]
  {
    assert batch[..i + 1][..i] == batch[..i];
  }

  lemma MergeEventsLength(store: Sensors, batch: Sensors)
    ensures |MergeEvents(store, batch)| == |batch|
  {
  }

  /** The merge entry by entry: a MAC of the batch ends up with its merged
      device, and every other MAC keeps what it had. */
  lemma {:induction false} MergeBatchLookup(store: Sensors, batch: Sensors, k: string)
    requires UniqueKeys(batch) && KeyedByMac(batch)
    ensures Lookup(MergeBatch(store, batch), k) ==
      if k in Keys(batch) then Some(MergeOne(Lookup(store, k), Lookup(batch, k).value)) else Lookup(store, k)
    decreases |batch|
  {
    if batch != [] {
      var p := batch[..|batch| - 1];
      var e := batch[|batch| - 1];
      assert batch == p + [e];
      UniqueKeysPrefix(batch, |batch| - 1);
      KeysAppend(p, e);
      LookupAppend(p, e, k);
      assert e.0 !in Keys(p) by {
        forall i | 0 <= i < |p| ensures Keys(p)[i] != e.0 {
          assert p[i] == batch[i];
        }
      }
      MergeBatchLookup(store, p, e.0);
      MergeBatchLookup(store, p, k);
      assert e.0 == MacKey(e.1.mac);
      LookupPut(MergeBatch(store, p), e.0, MergeOne(Lookup(MergeBatch(store, p), e.0), e.1), k);
    }
  }

  lemma {:induction false} MergeBatchWellFormed(store: Sensors, batch: Sensors)
    requires WellFormed(store) && EndpointsUnique(batch)
    ensures WellFormed(MergeBatch(store, batch))
    decreases |batch|
  {
    if batch != [] {
      var p := batch[..|batch| - 1];
      var e := batch[|batch| - 1];
      assert EndpointsUnique(p) by {
        forall i | 0 <= i < |p| ensures UniqueKeys(p[i].1.sensors) {
          assert p[i] == batch[i];
        }
      }
      MergeBatchWellFormed(store, p);
      var m := MergeBatch(store, p);
      var v := MergeOne(Lookup(m, e.0), e.1);
      if Lookup(m, e.0).Some? {
        var old_ := Lookup(m, e.0).value;
        var i :| 0 <= i < |m| && m[i] == (e.0, old_);
        SpreadUnique(old_.sensors, e.1.sensors);
      }
      PutKeepsShape(m, MacKey(e.1.mac), v);
      PutUnique(m, MacKey(e.1.mac), v);
    }
  }

  /** No endpoint is ever dropped: every endpoint key a stored device had is
      still there after a merge. */
  lemma InsertKeepsEndpoints(store: Sensors, items: seq<SensorDefinition>, k: string, uid: string)
    requires k in Keys(store) && uid in Keys(Lookup(store, k).value.sensors)
    ensures var after := MergeBatch(store, GroupByMac(items));
      k in Keys(after) && uid in Keys(Lookup(after, k).value.sensors)
  {
    var batch := GroupByMac(items);
    MergeBatchLookup(store, batch, k);
    if k in Keys(batch) {
      KeysSpread(Lookup(store, k).value.sensors, Lookup(batch, k).value.sensors, uid);
    }
  }

  /** On a common endpoint key the batch wins; other stored endpoints stay
      as they were. */
  lemma InsertOverlaysEndpoints(store: Sensors, items: seq<SensorDefinition>, k: string, uid: string)
    requires k in Keys(store)
    ensures var batch := GroupByMac(items);
      var after := MergeBatch(store, batch);
      k in Keys(after) &&
      Lookup(Lookup(after, k).value.sensors, uid) ==
        if k in Keys(batch) && uid in Keys(Lookup(batch, k).value.sensors)
        then Lookup(Lookup(batch, k).value.sensors, uid)
        else Lookup(Lookup(store, k).value.sensors, uid)
  {
    var batch := GroupByMac(items);
    MergeBatchLookup(store, batch, k);
    if k in Keys(batch) {
      LookupWellFormed(batch, k);
      LookupSpread(Lookup(store, k).value.sensors, Lookup(batch, k).value.sensors, uid);
    }
  }

  /** A MAC not yet stored is added exactly as grouped, and a MAC the batch
      does not mention is left untouched. */
  lemma InsertNewAndUntouched(store: Sensors, items: seq<SensorDefinition>, k: string)
    ensures var batch := GroupByMac(items);
      var after := MergeBatch(store, batch);
      && (k !in Keys(store) && k in Keys(batch) ==> Lookup(after, k) == Lookup(batch, k))
      && (k !in Keys(batch) ==> Lookup(after, k) == Lookup(store, k))
  {
    MergeBatchLookup(store, GroupByMac(items), k);
  }

  /** The `forEach` loop of `insertRessources` over a grouped batch, with the
      store's `addOrUpdate` announcing each device. */
  method MergeInto(store0: Sensors, batch: Sensors) returns (store: Sensors, events: seq<StoreEvent>)
    ensures store == MergeBatch(store0, batch)
    ensures events == MergeEvents(store0, batch)
  {
    store, events := store0, [];
    var i := 0;
    while i < |batch|
      invariant 0 <= i <= |batch|
      invariant store == MergeBatch(store0, batch[..i])
      invariant events == MergeEvents(store0, batch[..i])
    {
      MergeStep(store0, batch, i);
      var mac, sensor := batch[i].0, batch[i].1;
      var merged := sensor;
      if HasKey(store, mac) {
        merged := Sensor(sensor.mac, Spread(Lookup(store, mac).value.sensors, sensor.sensors));
      }
      var name := if MacKey(sensor.mac) in Keys(store) then "update" else "add";
      events := events + [StoreEvent(name, merged)];
      store := Put(store, MacKey(sensor.mac), merged);
      i := i + 1;
    }
    assert batch[..i] == batch;
  }

  // ---------------------------------------------------------------------------
  // findById
  // ---------------------------------------------------------------------------

  /** Endpoint `j` of device `i` has resource id `id`. */
  predicate HasIdAt(store: Sensors, i: int, j: int, id: string)
  {
    0 <= i < |store| && 0 <= j < |store[i].1.sensors| && store[i].1.sensors[j].1.id == id
  }

  /** Position `(i, j)` comes before `(i', j')` in the scan order. */
  predicate Before(i: int, j: int, i': int, j': int)
  {
    i < i' || (i == i' && j < j')
  }

  // ---------------------------------------------------------------------------
  // The collator
  // ---------------------------------------------------------------------------

  /** The collator: inserted endpoints wait in the current 750 ms buffer
      (`pending`) until the buffer is flushed into the MAC-keyed store.
      `subscribed` is whether `onInit` has subscribed the buffer and
      `onDestroy` has not yet ended it; inserts at other times are dropped, as
      the source's subject has no subscriber then. */
  class SensorRessourceCollator {
    var initialized: bool
    var subscribed: bool
    var pending: seq<SensorDefinition>
    var store: Sensors
    var events: seq<StoreEvent>

    ghost predicate Valid()
      reads this
    {
      WellFormed(store) && (!subscribed ==> pending == [])
    }

    constructor()
      ensures Valid()
      ensures !initialized && !subscribed && pending == [] && store == [] && events == []
    {
      initialized := false;
      subscribed := false;
      pending := [];
      store := [];
      events := [];
    }

    /** `onInit`: subscribes the buffered insert stream. */
    method OnInit()
      requires Valid() && !initialized
      modifies this
      ensures Valid() && initialized && subscribed
      ensures pending == old(pending) && store == old(store) && events == old(events)
    {
      initialized := true;
      subscribed := true;
    }

    /** `insert`: an endpoint with an id and a definition is enqueued with
        its derived MAC; anything else is ignored. */
    method Insert(id: Option<string>, definition: JsValue)
      requires Valid()
      requires Nullish(definition) || HasUniqueId(definition)
      modifies this
      ensures Valid()
      ensures pending == old(pending) +
        (if id.Some? && !Nullish(definition) && subscribed
         then [SensorDefinition(id.value, MacFromResource(definition), definition)] else [])
      ensures store == old(store) && events == old(events)
      ensures initialized == old(initialized) && subscribed == old(subscribed)
    {
      if id.Some? && definition != Undefined && definition != Null {
        var item := SensorDefinition(id.value, MacFromResource(definition), definition);
        if subscribed {
          pending := pending + [item];
        }
      }
    }

    /** `insertMany`: `insert` for every entry of the map, in order. */
    method InsertMany(sensors: Assoc<JsValue>)
      requires Valid()
      requires forall i :: 0 <= i < |sensors| ==> Nullish(sensors[i].1) || HasUniqueId(sensors[i].1)
      modifies this
      ensures Valid()
      ensures pending == old(pending) + (if subscribed then Enqueued(sensors) else [])
      ensures store == old(store) && events == old(events)
      ensures initialized == old(initialized) && subscribed == old(subscribed)
    {
      var i := 0;
      while i < |sensors|
        invariant 0 <= i <= |sensors| && Valid()
        invariant pending == old(pending) + (if subscribed then Enqueued(sensors[..i]) else [])
        invariant store == old(store) && events == old(events)
        invariant initialized == old(initialized) && subscribed == old(subscribed)
      {
        assert sensors[..i + 1][..i] == sensors[..i];
        Insert(Some(sensors[i].0), sensors[i].1);
        i := i + 1;
      }
      assert sensors[..i] == sensors;
    }

    /** `insertRessources`: groups the batch and merges each device into
        the store, announcing each as added or updated. */
    method InsertRessources(items: seq<SensorDefinition>)
      requires Valid()
      modifies this
      ensures Valid()
      ensures store == MergeBatch(old(store), GroupByMac(items))
      ensures events == old(events) + MergeEvents(old(store), GroupByMac(items))
      ensures pending == old(pending) && initialized == old(initialized) && subscribed == old(subscribed)
    {
      var batch := ToSensors(items);
      MergeBatchWellFormed(store, batch);
      var merged, announced := MergeInto(store, batch);
      store := merged;
      events := events + announced;
    }

    /** The buffer's tick: the endpoints collected in the window are merged. */
    method Flush()
      requires Valid()
      modifies this
      ensures Valid() && pending == []
      ensures store == MergeBatch(old(store), GroupByMac(old(pending)))
      ensures events == old(events) + MergeEvents(old(store), GroupByMac(old(pending)))
      ensures initialized == old(initialized) && subscribed == old(subscribed)
    {
      var batch := pending;
      pending := [];
      InsertRessources(batch);
    }

    /** `onDestroy`: ends the subscription; the buffer flushes what it still
        holds as it completes, as `Flush` does. */
    method OnDestroy()
      requires Valid()
      modifies this
      ensures Valid() && !subscribed && pending == []
      ensures store == MergeBatch(old(store), GroupByMac(old(pending)))
      ensures events == old(events) + MergeEvents(old(store), GroupByMac(old(pending)))
      ensures initialized == old(initialized)
    {
      var batch := pending;
      pending := [];
      subscribed := false;
      InsertRessources(batch);
    }

    /** `findById`: the first stored endpoint, scanning devices and then
        their endpoints in order, whose resource id is `id`. */
    method FindById(id: string) returns (r: Option<SensorDefinition>)
      ensures r.None? <==> forall i, j :: !HasIdAt(store, i, j, id)
      ensures r.Some? ==> exists i, j ::
        && HasIdAt(store, i, j, id) && r.value == store[i].1.sensors[j].1
        && (forall i', j' :: Before(i', j', i, j) ==> !HasIdAt(store, i', j', id))
    {
      var i := 0;
      while i < |store|
        invariant 0 <= i <= |store|
        invariant forall i', j' :: i' < i ==> !HasIdAt(store, i', j', id)
      {
        var sensors := store[i].1.sensors;
        var j := 0;
        while j < |sensors|
          invariant 0 <= j <= |sensors|
          invariant forall i', j' :: Before(i', j', i, j) ==> !HasIdAt(store, i', j', id)
        {
          if sensors[j].1.id == id {
            assert HasIdAt(store, i, j, id);
            return Some(sensors[j].1);
          }
          j := j + 1;
        }
        i := i + 1;
      }
      return None;
    }

    /** `getAll`: a copy of the store's state. Under the collator's invariant
        every device in it is filed under its own MAC, once, with distinct
        endpoint keys. */
    function GetAll(): (all: Sensors)
      reads this
      ensures Valid() ==> WellFormed(all)
      ensures Valid() ==> forall i :: 0 <= i < |all| ==> all[i].0 == MacKey(all[i].1.mac)
      ensures forall k :: Lookup(all, k) == Lookup(store, k)
    {
      store
    }
  }

  /** The endpoints `insertMany` enqueues for a map of resources, in order. */
  function Enqueued(sensors: Assoc<JsValue>): seq<SensorDefinition>
    requires forall i :: 0 <= i < |sensors| ==> Nullish(sensors[i].1) || HasUniqueId(sensors[i].1)
    decreases |sensors|
  {
    if sensors == [] then []
    else
      var p := sensors[..|sensors| - 1];
      var (id, d) := sensors[|sensors| - 1];
      Enqueued(p) + (if Nullish(d) then [] else [SensorDefinition(id, MacFromResource(d), d)])
  }
}
