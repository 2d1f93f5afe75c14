/** The device factory (src/deconzhomie/DeviceFactory.ts): a registry of
    device classes by smarthome type, and the rules that turn a light, a light
    group or a collated sensor into the attributes of a new Homie device. */
module DeviceFactory {
  import opened Js
  import opened DeconzModel
  import opened SensorCollator
  import opened Group

  /** The device classes the factory can instantiate; classes registered from
      elsewhere are known only by name. */
  datatype DeviceClass =
    | GenericLight
    | GenericLightGroup
    | MotionSensor
    | WeatherSensor
    | GestureSensor
    | ContactSensor
    | VibrationSensor
    | XiaomiAqaraCube
    | XiaomiAqara86sw2
    | OtherClass(name: string)

  /** A key of the class registry. The smarthome types come from an external
      library: only their being distinct from each other and from the
      bridge's own literal keys matters, so each is a constructor of its own. */
  datatype TypeKey =
    | Named(s: string)
    | WeatherType
    | MotionSensorType
    | PowermeterType
    | ContactType
    | ThermostatType
    | GestureSensorType

  const CubeModel: string := "lumi.sensor_cube.aqgl01"
  const SwitchModel: string := "lumi.sensor_86sw2"
  /** `VIBRATION_SENSOR` of src/deconzhomie/VibrationSensor.ts */
  const VibrationType: string := "vibration-sensor"

  /** `deviceClassMapping`: the smarthome type for a gateway sensor type that
      is one of the mapping's keys. */
  function ClassMapping(sensorType: string): Option<TypeKey>
  {
    match sensorType
    case "ZHAHumidity" => Some(WeatherType)
    case "ZHATemperature" => Some(WeatherType)
    case "ZHAPressure" => Some(WeatherType)
    case "ZHAPresence" => Some(MotionSensorType)
    case "ZHALightLevel" => Some(MotionSensorType)
    case "ZHAConsumption" => Some(PowermeterType)
    case "ZHAPower" => Some(PowermeterType)
    case "ZHAOpenClose" => Some(ContactType)
    case "ZHASwitch" => Some(GestureSensorType)
    case "ZHAThermostat" => Some(ThermostatType)
    case "ZHAVibration" => Some(Named(VibrationType))
    case _ => None
  }

  /** The classes the constructor registers. */
  const InitialRegistrations: map<TypeKey, DeviceClass> := map[
    Named("light") := GenericLight,
    Named("group") := GenericLightGroup,
    MotionSensorType := MotionSensor,
    WeatherType := WeatherSensor,
    GestureSensorType := GestureSensor,
    ContactType := ContactSensor,
    Named(VibrationType) := VibrationSensor,
    Named(CubeModel) := XiaomiAqaraCube,
    Named(SwitchModel) := XiaomiAqara86sw2
  ]

  /** What `determineSensorDeviceInfo` returns. */
  datatype DeviceInfo = DeviceInfo(id: string, name: JsValue, typeClass: Option<DeviceClass>, uniqueid: string)

  /** The attributes and class a new device is constructed with. */
  datatype NewDevice = NewDevice(id: string, name: JsValue, parent: Option<string>, root: Option<string>, typeClass: DeviceClass)

  /** `createSensorDevice`'s three ways out. */
  datatype SensorOutcome = NoDevice | Thrown(message: string) | Created(device: NewDevice)

  function ClassOf(types: map<TypeKey, DeviceClass>, key: TypeKey): Option<DeviceClass>
  {
    if key in types then Some(types[key]) else None
  }

  /** The smarthome type an endpoint's `type` maps to, if it is mapped at all. */
  function MappedType(t: JsValue): Option<TypeKey>
  {
    if t.Str? then ClassMapping(t.s) else None
  }

  /** The verdict of one iteration of the scan over the endpoints: the cube and
      the two-button switch are recognised by model id, other endpoints by a
      mapped type whose class is registered; anything else lets the scan go on. */
  function Qualify(types: map<TypeKey, DeviceClass>, uniqueid: string, d: SensorDefinition): (r: Option<DeviceInfo>)
    ensures Prop(d.definition, "modelid") == Str(CubeModel)
            ==> r == Some(DeviceInfo("cube-" + d.id, Prop(d.definition, "name"), ClassOf(types, Named(CubeModel)), uniqueid))
    ensures Prop(d.definition, "modelid") == Str(SwitchModel)
            ==> r == Some(DeviceInfo("switch-" + d.id, Prop(d.definition, "name"), ClassOf(types, Named(SwitchModel)), uniqueid))
    ensures Prop(d.definition, "modelid") !in {Str(CubeModel), Str(SwitchModel)}
            ==> (r.Some? <==> MappedType(Prop(d.definition, "type")).Some? && MappedType(Prop(d.definition, "type")).value in types)
    ensures Prop(d.definition, "modelid") !in {Str(CubeModel), Str(SwitchModel)} && r.Some?
            ==> var key := MappedType(Prop(d.definition, "type"));
                && r.value.id == "sensor-" + d.id
                && key.Some? && key.value in types && r.value.typeClass == Some(types[key.value])
    ensures r.Some? ==> r.value.uniqueid == uniqueid && r.value.name == Prop(d.definition, "name")
  {
    var modelid := Prop(d.definition, "modelid");
    var name := Prop(d.definition, "name");
    if modelid == Str(CubeModel) then Some(DeviceInfo("cube-" + d.id, name, ClassOf(types, Named(CubeModel)), uniqueid))
    else if modelid == Str(SwitchModel) then Some(DeviceInfo("switch-" + d.id, name, ClassOf(types, Named(SwitchModel)), uniqueid))
    else match MappedType(Prop(d.definition, "type"))
      case Some(key) => if key in types then Some(DeviceInfo("sensor-" + d.id, name, Some(types[key]), uniqueid)) else None
      case None => None
  }

  /** The scan's result: the verdict of the first endpoint that qualifies. */
  function SensorDeviceInfo(types: map<TypeKey, DeviceClass>, resources: Assoc<SensorDefinition>): (r: Option<DeviceInfo>)
    ensures r.None? <==> forall j :: 0 <= j < |resources| ==> Qualify(types, resources[j].0, resources[j].1).None?
    ensures r.Some? ==> exists i :: 0 <= i < |resources| && r == Qualify(types, resources[i].0, resources[i].1)
                                    && forall j :: 0 <= j < i ==> Qualify(types, resources[j].0, resources[j].1).None?
  {
    if resources == [] then None
    else
      var first := Qualify(types, resources[0].0, resources[0].1);
      if first.Some? then first
      else
        var rest := SensorDeviceInfo(types, resources[1..]);
        ScanPastFirst(types, resources, rest);
        rest
  }

  /** When the first endpoint does not qualify, the scan of the others is
      the scan of all. */
  lemma ScanPastFirst(types: map<TypeKey, DeviceClass>, resources: Assoc<SensorDefinition>, rest: Option<DeviceInfo>)
    requires resources != [] && Qualify(types, resources[0].0, resources[0].1).None?
    requires rest.None? <==> forall j :: 0 <= j < |resources| - 1 ==> Qualify(types, resources[1..][j].0, resources[1..][j].1).None?
    requires rest.Some? ==> exists i :: 0 <= i < |resources| - 1 && rest == Qualify(types, resources[1..][i].0, resources[1..][i].1)
                                        && forall j :: 0 <= j < i ==> Qualify(types, resources[1..][j].0, resources[1..][j].1).None?
    ensures rest.None? <==> forall j :: 0 <= j < |resources| ==> Qualify(types, resources[j].0, resources[j].1).None?
    ensures rest.Some? ==> exists i :: 0 <= i < |resources| && rest == Qualify(types, resources[i].0, resources[i].1)
                                      && forall j :: 0 <= j < i ==> Qualify(types, resources[j].0, resources[j].1).None?
  {
    assert forall j :: 1 <= j < |resources| ==> resources[j] == resources[1..][j - 1];
    if rest.Some? {
      var i :| 0 <= i < |resources| - 1 && rest == Qualify(types, resources[1..][i].0, resources[1..][i].1)
               && forall j :: 0 <= j < i ==> Qualify(types, resources[1..][j].0, resources[1..][j].1).None?;
      assert resources[i + 1] == resources[1..][i];
      assert forall j :: 0 <= j < i + 1 ==> Qualify(types, resources[j].0, resources[j].1).None?;
    }
  }

  /** ZHAConsumption, ZHAPower and ZHAThermostat map to smarthome types no class
      is registered for: such an endpoint never decides the scan. */
  lemma UnregisteredMappingsAreSkipped(uniqueid: string, d: SensorDefinition)
    requires Prop(d.definition, "modelid") !in {Str(CubeModel), Str(SwitchModel)}
    requires Prop(d.definition, "type") in {Str("ZHAConsumption"), Str("ZHAPower"), Str("ZHAThermostat")}
    ensures Qualify(InitialRegistrations, uniqueid, d).None?
  {
    var t := Prop(d.definition, "type");
    var key := if t == Str("ZHAThermostat") then ThermostatType else PowermeterType;
    assert MappedType(t) == Some(key);
    assert key !in InitialRegistrations;
  }

  /** The device class each of the eight registered gateway sensor types
      ends up with, read off the mapping and the constructor's registrations. */
  function SensorClassFor(sensorType: string): Option<DeviceClass>
  {
    match sensorType
    case "ZHAHumidity" => Some(WeatherSensor)
    case "ZHATemperature" => Some(WeatherSensor)
    case "ZHAPressure" => Some(WeatherSensor)
    case "ZHAPresence" => Some(MotionSensor)
    case "ZHALightLevel" => Some(MotionSensor)
    case "ZHAOpenClose" => Some(ContactSensor)
    case "ZHASwitch" => Some(GestureSensor)
    case "ZHAVibration" => Some(VibrationSensor)
    case _ => None
  }

  /** The other eight mapped types do yield a `sensor-` device, with the
      class `SensorClassFor` names for them. */
  lemma RegisteredMappingsYieldSensors(uniqueid: string, d: SensorDefinition)
    requires Prop(d.definition, "modelid") !in {Str(CubeModel), Str(SwitchModel)}
    requires Prop(d.definition, "type") in {Str("ZHAHumidity"), Str("ZHATemperature"), Str("ZHAPressure"),
                                           Str("ZHAPresence"), Str("ZHALightLevel"), Str("ZHAOpenClose"),
                                           Str("ZHASwitch"), Str("ZHAVibration")}
    ensures Qualify(InitialRegistrations, uniqueid, d).Some?
    ensures Qualify(InitialRegistrations, uniqueid, d).value.id == "sensor-" + d.id
    ensures Qualify(InitialRegistrations, uniqueid, d).value.typeClass == SensorClassFor(Prop(d.definition, "type").s)
  {
    var t := Prop(d.definition, "type");
    RegisteredClassFor(t.s);
  }

  /** For each of the eight types the mapping's key is registered, under the
      class `SensorClassFor` names. */
  lemma RegisteredClassFor(sensorType: string)
    requires sensorType in {"ZHAHumidity", "ZHATemperature", "ZHAPressure", "ZHAPresence",
                            "ZHALightLevel", "ZHAOpenClose", "ZHASwitch", "ZHAVibration"}
    ensures var key := ClassMapping(sensorType);
            key.Some? && key.value in InitialRegistrations && Some(InitialRegistrations[key.value]) == SensorClassFor(sensorType)
  {
  }

  class DeviceFactory {
    var deviceTypes: map<TypeKey, DeviceClass>
    const parentId: Option<string>

    /** Registration only ever adds or replaces: the constructor's classes
        stay registered. */
    ghost predicate Valid()
      reads this
    {
      InitialRegistrations.Keys <= deviceTypes.Keys
    }

    constructor(parentId: Option<string>)
      ensures Valid()
      ensures deviceTypes == InitialRegistrations && this.parentId == parentId
    {
      this.parentId := parentId;
      deviceTypes := map[];
      new;
      RegisterDeviceTypeClass(Named("light"), GenericLight);
      RegisterDeviceTypeClass(Named("group"), GenericLightGroup);
      RegisterDeviceTypeClass(MotionSensorType, MotionSensor);
      RegisterDeviceTypeClass(WeatherType, WeatherSensor);
      RegisterDeviceTypeClass(GestureSensorType, GestureSensor);
      RegisterDeviceTypeClass(ContactType, ContactSensor);
      RegisterDeviceTypeClass(Named(VibrationType), VibrationSensor);
      RegisterDeviceTypeClass(Named(CubeModel), XiaomiAqaraCube);
      RegisterDeviceTypeClass(Named(SwitchModel), XiaomiAqara86sw2);
    }

    /** `registerDeviceTypeClass`: registers or replaces the class for `key`;
        every other registration is kept. */
    method RegisterDeviceTypeClass(key: TypeKey, typeClass: DeviceClass)
      modifies this`deviceTypes
      ensures deviceTypes == old(deviceTypes)[key := typeClass]
      ensures old(Valid()) ==> Valid()
    {
      deviceTypes := deviceTypes[key := typeClass];
    }

    /** `determineSensorDeviceInfo`: scans the endpoints in order and returns
        at the first that qualifies. */
    method DetermineSensorDeviceInfo(resources: Assoc<SensorDefinition>) returns (r: Option<DeviceInfo>)
      ensures r == SensorDeviceInfo(deviceTypes, resources)
    {
      var i := 0;
      while i < |resources|
        invariant 0 <= i <= |resources|
        invariant SensorDeviceInfo(deviceTypes, resources) == SensorDeviceInfo(deviceTypes, resources[i..])
      {
        var uniqueid := resources[i].0;
        var resource := resources[i].1;
        assert resources[i..][1..] == resources[i + 1..];
        var modelid := Prop(resource.definition, "modelid");
        var name := Prop(resource.definition, "name");
        if modelid == Str(CubeModel) {
          return Some(DeviceInfo("cube-" + resource.id, name, ClassOf(deviceTypes, Named(CubeModel)), uniqueid));
        }
        if modelid == Str(SwitchModel) {
          return Some(DeviceInfo("switch-" + resource.id, name, ClassOf(deviceTypes, Named(SwitchModel)), uniqueid));
        }
        var t := Prop(resource.definition, "type");
        if t.Str? && ClassMapping(t.s).Some? {
          var mappingIndex := ClassMapping(t.s).value;
          if mappingIndex in deviceTypes {
            return Some(DeviceInfo("sensor-" + resource.id, name, Some(deviceTypes[mappingIndex]), uniqueid));
          }
        }
        i := i + 1;
      }
      return None;
    }

    /** `createLightDevice`: nothing for a resource that is not a light;
        otherwise a `light-` device of the registered light class, named
        after the resource. */
    function CreateLightDevice(resource: JsValue, deviceId: string): (r: Option<NewDevice>)
      requires Valid()
      reads this
      ensures r.None? <==> !IsLightResource(resource)
      ensures r.Some? ==> r.value.id == "light-" + deviceId && r.value.name == Prop(resource, "name")
      ensures r.Some? ==> r.value.typeClass == deviceTypes[Named("light")]
      ensures r.Some? ==> r.value.parent == parentId && r.value.root == parentId
    {
      if !IsLightResource(resource) then None
      else Some(NewDevice("light-" + deviceId, Prop(resource, "name"), parentId, parentId, deviceTypes[Named("light")]))
    }

    /** `createLightGroupDevice`: nothing unless the group's resource is a
        group resource; otherwise a `group-` device of the registered group
        class, named after the group resource. */
    function CreateLightGroupDevice(group: Group, deviceId: string): (r: Option<NewDevice>)
      requires Valid()
      reads this
      ensures r.None? <==> !IsGroupResource(group.resource)
      ensures r.Some? ==> r.value.id == "group-" + deviceId && r.value.name == Prop(group.resource, "name")
      ensures r.Some? ==> r.value.typeClass == deviceTypes[Named("group")]
      ensures r.Some? ==> r.value.parent == parentId && r.value.root == parentId
    {
      if !IsGroupResource(group.resource) then None
      else Some(NewDevice("group-" + deviceId, Prop(group.resource, "name"), parentId, parentId, deviceTypes[Named("group")]))
    }

    /** `createSensorDevice`: nothing when no endpoint qualifies; an error
        when one does but MQTT is not connected; otherwise a device with the
        id, name and class the scan found. */
    function CreateSensorDevice(sensor: Sensor, mqttConnected: bool): (r: SensorOutcome)
      requires Valid()
      reads this
      ensures r.NoDevice? <==> SensorDeviceInfo(deviceTypes, sensor.sensors).None?
      ensures r.Thrown? <==> SensorDeviceInfo(deviceTypes, sensor.sensors).Some? && !mqttConnected
      ensures r.Thrown? ==> r.message == SensorDeviceInfo(deviceTypes, sensor.sensors).value.id + " -- cannot create sensor - mqtt not connected!"
      ensures r.Created? ==> var info := SensorDeviceInfo(deviceTypes, sensor.sensors).value;
                             && r.device.id == info.id && r.device.name == info.name
                             && Some(r.device.typeClass) == info.typeClass
                             && r.device.parent == parentId && r.device.root == parentId
    {
      var info := SensorDeviceInfo(deviceTypes, sensor.sensors);
      if info.None? then NoDevice
      else if !mqttConnected then Thrown(info.value.id + " -- cannot create sensor - mqtt not connected!")
      else
        var i :| 0 <= i < |sensor.sensors| && info == Qualify(deviceTypes, sensor.sensors[i].0, sensor.sensors[i].1);
        assert info.value.typeClass.Some?;
        Created(NewDevice(info.value.id, info.value.name, parentId, parentId, info.value.typeClass.value))
    }
  }
}
