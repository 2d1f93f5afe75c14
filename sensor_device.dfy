/** The part of a sensor device that all concrete sensor classes share
    (src/deconzhomie/SensorDevice.ts): the endpoint ids it answers to, lookups
    among its endpoint definitions, and the rename messages it accepts. */
module SensorDevices {
  import opened Js
  import opened SensorCollator

  /** The id of every endpoint of `sensors`, in enumeration order. */
  ghost predicate IdsOf(ids: seq<string>, sensors: Assoc<SensorDefinition>)
  {
    && |ids| == |sensors|
    && forall j :: 0 <= j < |sensors| ==> ids[j] == sensors[j].1.id
  }

  /** `sensorDef.definition.type === type` */
  predicate HasType(def: SensorDefinition, t: string)
  {
    Prop(def.definition, "type") == Str(t)
  }

  /** The rename filter of the constructor's message pipeline: a bare `changed`
      message (neither `state` nor `attr`) about a sensor endpoint of this
      device, carrying a non-empty `name` other than the current one. */
  predicate NameUpdateAccepted(message: JsValue, ids: seq<string>, current: JsValue)
  {
    && Prop(message, "e") == Str("changed")
    && !Truthy(Prop(message, "state"))
    && !Truthy(Prop(message, "attr"))
    && Prop(message, "r") == Str("sensors")
    && Prop(message, "id").Str? && Prop(message, "id").s in ids
    && Truthy(Prop(message, "name"))
    && Prop(message, "name") != current
  }

  /** The name the device has after `message`, as written: an accepted message
      sets the name to `message.attr?.name`. The filter has just required
      `attr` to be falsy, so every accepted rename sets the name to `undefined`. */
  function RenamedToAsWritten(message: JsValue, ids: seq<string>, current: JsValue): (r: JsValue)
    ensures NameUpdateAccepted(message, ids, current) ==> r == Undefined
    ensures !NameUpdateAccepted(message, ids, current) ==> r == current
  {
    if NameUpdateAccepted(message, ids, current) then Prop(Prop(message, "attr"), "name") else current
  }

  /** A bare `changed` message renaming sensor endpoint 7 to `Hall`. */
  function HallRename(): JsValue
  {
    Obj([("e", Str("changed")), ("r", Str("sensors")), ("id", Str("7")), ("name", Str("Hall"))])
  }

  lemma HallRenameFields()
    ensures Prop(HallRename(), "e") == Str("changed")
    ensures Prop(HallRename(), "r") == Str("sensors")
    ensures Prop(HallRename(), "id") == Str("7")
    ensures Prop(HallRename(), "name") == Str("Hall")
  {
  }

  lemma HallRenameHasNoStateOrAttr()
    ensures Prop(HallRename(), "state") == Undefined
    ensures Prop(HallRename(), "attr") == Undefined
  {
    assert "state" !in Keys(HallRename().fields);
    assert "attr" !in Keys(HallRename().fields);
  }

  lemma HallRenameAccepted()
    ensures NameUpdateAccepted(HallRename(), ["7"], Str("Sensor 7"))
  {
    HallRenameFields();
    HallRenameHasNoStateOrAttr();
    AcceptedByFields(HallRename(), "7", "Hall", ["7"], Str("Sensor 7"));
  }

  lemma AcceptedByFields(message: JsValue, id: string, name: string, ids: seq<string>, current: JsValue)
    requires Prop(message, "e") == Str("changed") && Prop(message, "r") == Str("sensors")
    requires Prop(message, "state") == Undefined && Prop(message, "attr") == Undefined
    requires Prop(message, "id") == Str(id) && id in ids
    requires Prop(message, "name") == Str(name) && name != "" && Str(name) != current
    ensures NameUpdateAccepted(message, ids, current)
  {
  }

  /** A concrete rename the as-written update loses. */
  lemma RenameAsWrittenLosesName()
    ensures NameUpdateAccepted(HallRename(), ["7"], Str("Sensor 7"))
    ensures RenamedToAsWritten(HallRename(), ["7"], Str("Sensor 7")) == Undefined
  {
    HallRenameAccepted();
  }

  /** The name the device has after `message`, with the name read from the
      field the filter checked: an accepted rename always changes the name to
      the non-empty name the message carries. */
  function RenamedTo(message: JsValue, ids: seq<string>, current: JsValue): (r: JsValue)
    ensures NameUpdateAccepted(message, ids, current) ==> r == Prop(message, "name") && Truthy(r) && r != current
    ensures !NameUpdateAccepted(message, ids, current) ==> r == current
  {
    if NameUpdateAccepted(message, ids, current) then Prop(message, "name") else current
  }

  /** Renaming is idempotent: delivering the same rename twice changes nothing
      the second time. */
  lemma RenameIdempotent(message: JsValue, ids: seq<string>, current: JsValue)
    ensures RenamedTo(message, ids, RenamedTo(message, ids, current)) == RenamedTo(message, ids, current)
  {
  }

  class SensorDevice {
    const sensor: Sensor
    /** The endpoint ids, filled once by the constructor. */
    var ids: seq<string>
    /** The device's `name` attribute. */
    var name: JsValue

    ghost predicate Valid()
      reads this
    {
      IdsOf(ids, sensor.sensors)
    }

    constructor(sensor: Sensor, name: JsValue)
      ensures this.sensor == sensor && this.name == name
      ensures Valid()
    {
      this.sensor := sensor;
      this.name := name;
      var sensors := sensor.sensors;
      var ids: seq<string> := [];
      var i := 0;
      while i < |sensors|
        invariant 0 <= i <= |sensors|
        invariant |ids| == i
        invariant forall j :: 0 <= j < i ==> ids[j] == sensors[j].1.id
      {
        ids := ids + [sensors[i].1.id];
        i := i + 1;
      }
      this.ids := ids;
    }

    /** `getSensorDefByType`: the first endpoint definition whose `type` is `t`. */
    method GetSensorDefByType(t: string) returns (r: Option<SensorDefinition>)
      ensures r.None? <==> forall j :: 0 <= j < |sensor.sensors| ==> !HasType(sensor.sensors[j].1, t)
      ensures r.Some? ==> (exists i :: 0 <= i < |sensor.sensors| && r.value == sensor.sensors[i].1
                                     && HasType(r.value, t)
                                     && forall j :: 0 <= j < i ==> !HasType(sensor.sensors[j].1, t))
    {
      var sensors := sensor.sensors;
      var i := 0;
      while i < |sensors|
        invariant 0 <= i <= |sensors|
        invariant forall j :: 0 <= j < i ==> !HasType(sensors[j].1, t)
      {
        if HasType(sensors[i].1, t) {
          return Some(sensors[i].1);
        }
        i := i + 1;
      }
      return None;
    }

    /** `getByExtension`: the first endpoint whose uniqueid key ends with `ext`. */
    function GetByExtension(ext: string): (r: Option<SensorDefinition>)
      ensures r.None? <==> forall j :: 0 <= j < |sensor.sensors| ==> !EndsWith(sensor.sensors[j].0, ext)
      ensures r.Some? ==> (exists i :: 0 <= i < |sensor.sensors| && r.value == sensor.sensors[i].1
                                     && EndsWith(sensor.sensors[i].0, ext)
                                     && forall j :: 0 <= j < i ==> !EndsWith(sensor.sensors[j].0, ext))
    {
      match FirstIndex(sensor.sensors, (uid: string, _: SensorDefinition) => EndsWith(uid, ext))
      case None => None
      case Some(i) => Some(sensor.sensors[i].1)
    }

    /** `includesSensorId`: `id` is the id of one of the device's endpoints. */
    function IncludesSensorId(id: string): (r: bool)
      requires Valid()
      reads this
      ensures r <==> exists j :: 0 <= j < |sensor.sensors| && sensor.sensors[j].1.id == id
    {
      id in ids
    }

    /** One message of the event stream reaching the rename pipeline. */
    method OnMessage(message: JsValue)
      modifies this`name
      ensures name == RenamedTo(message, ids, old(name))
    {
      name := RenamedTo(message, ids, name);
    }
  }
}
