/** Light groups as the bridge hands them to group devices
    (src/deconzhomie/Group.ts): the gateway's group resource together with the
    brightness of each member light that the gateway also reported. */
module Group {
  import opened Js
  import opened DeconzModel

  datatype Group = Group(resource: JsValue, lightBrightness: Assoc<JsValue>)

  /** The object a `Group` is at run time. */
  function GroupToJs(g: Group): JsValue
  {
    Obj([("resource", g.resource), ("lightBrightness", Obj(g.lightBrightness))])
  }

  /** `isGroup`: a truthy object whose `resource` is a truthy group resource and
      whose `lightBrightness` is truthy. */
  predicate IsGroup(obj: JsValue)
  {
    && Truthy(obj)
    && Truthy(Prop(obj, "resource"))
    && IsGroupResource(Prop(obj, "resource"))
    && Truthy(Prop(obj, "lightBrightness"))
  }

  /** `lights[key]`, `undefined` when the light map has no such key. */
  function LightAt(lights: Assoc<JsValue>, key: string): JsValue
  {
    match Lookup(lights, key)
    case Some(light) => light
    case None => Undefined
  }

  /** `light.state?.bri` */
  function Bri(light: JsValue): JsValue
  {
    Prop(Prop(light, "state"), "bri")
  }

  /** The brightness map after the `forEach` has visited `ids`: each id whose
      light is truthy is assigned that light's `state.bri`, under the id's
      property key. */
  function Brightness(ids: seq<JsValue>, lights: Assoc<JsValue>): (r: Assoc<JsValue>)
    ensures |r| <= |ids|
  {
    if ids == [] then []
    else
      var acc := Brightness(ids[..|ids| - 1], lights);
      var key := ToStr(ids[|ids| - 1]);
      var light := LightAt(lights, key);
      KeysPut(acc, key, Bri(light));
      if Truthy(light) then Put(acc, key, Bri(light)) else acc
  }

  /** The id `key` is listed in `ids` (under its property-key spelling). */
  predicate Listed(ids: seq<JsValue>, key: string)
  {
    exists i :: 0 <= i < |ids| && ToStr(ids[i]) == key
  }

  /** `createGroup`: the group's `resource.lights` (an array, as the group
      resource type promises) is walked in order, filling the brightness map. */
  method CreateGroup(resource: JsValue, lights: Assoc<JsValue>) returns (g: Group)
    requires Prop(resource, "lights").Arr?
    ensures g == Group(resource, Brightness(Prop(resource, "lights").items, lights))
  {
    var ids := Prop(resource, "lights").items;
    var lightBrightness: Assoc<JsValue> := [];
    var i := 0;
    while i < |ids|
      invariant 0 <= i <= |ids|
      invariant lightBrightness == Brightness(ids[..i], lights)
    {
      var key := ToStr(ids[i]);
      var light := LightAt(lights, key);
      assert ids[..i + 1][..i] == ids[..i];
      if Truthy(light) {
        lightBrightness := Put(lightBrightness, key, Bri(light));
      }
      i := i + 1;
    }
    assert ids[..i] == ids;
    g := Group(resource, lightBrightness);
  }

  /** The brightness map holds exactly the listed ids whose light exists (is
      truthy) in the light map, each with that light's `state.bri`. */
  lemma {:induction false} BrightnessLookup(ids: seq<JsValue>, lights: Assoc<JsValue>, key: string)
    ensures Lookup(Brightness(ids, lights), key)
         == if Listed(ids, key) && Truthy(LightAt(lights, key)) then Some(Bri(LightAt(lights, key))) else None
  {
    if ids != [] {
      var init, last := ids[..|ids| - 1], ids[|ids| - 1];
      BrightnessLookup(init, lights, key);
      var k := ToStr(last);
      if Truthy(LightAt(lights, k)) {
        LookupPut(Brightness(init, lights), k, Bri(LightAt(lights, k)), key);
      }
      if Listed(ids, key) {
        var i :| 0 <= i < |ids| && ToStr(ids[i]) == key;
        if i < |ids| - 1 {
          assert init[i] == ids[i];
        }
      }
      if Listed(init, key) {
        var i :| 0 <= i < |init| && ToStr(init[i]) == key;
        assert ids[i] == init[i];
      }
    }
  }

  /** Listing an id twice does not duplicate it: the map is a proper object. */
  lemma {:induction false} BrightnessUnique(ids: seq<JsValue>, lights: Assoc<JsValue>)
    ensures UniqueKeys(Brightness(ids, lights))
  {
    if ids != [] {
      var init := ids[..|ids| - 1];
      BrightnessUnique(init, lights);
      var k := ToStr(ids[|ids| - 1]);
      if Truthy(LightAt(lights, k)) {
        PutUnique(Brightness(init, lights), k, Bri(LightAt(lights, k)));
      }
    }
  }

  /** A created group passes `isGroup` exactly when its resource is a group
      resource: the brightness map is an object, hence always truthy. */
  lemma CreatedGroupIsGroup(g: Group)
    ensures IsGroup(GroupToJs(g)) <==> IsGroupResource(g.resource)
  {
    GroupToJsReads(g);
  }

  lemma GroupToJsReads(g: Group)
    ensures Prop(GroupToJs(g), "resource") == g.resource
    ensures Prop(GroupToJs(g), "lightBrightness") == Obj(g.lightBrightness)
  {
    var o := GroupToJs(g);
    assert Keys(o.fields) == ["resource", "lightBrightness"];
  }
}
