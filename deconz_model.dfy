/** The gateway's resource kinds and the run-time guards that tell them apart
    (src/deconz/deconz.model.ts). Resources arrive as parsed JSON, so the guards
    look only at which fields are present. */
module DeconzModel {
  import opened Js

  /** `isLightResource`: `hascolor` and `state.on` are both defined. */
  predicate IsLightResource(resource: JsValue)
    ensures IsLightResource(resource) ==> resource.Obj? && Prop(resource, "state").Obj?
  {
    Prop(resource, "hascolor") != Undefined && Prop(Prop(resource, "state"), "on") != Undefined
  }

  /** `isGroupResource`: a `LightGroup` with `devicemembership` and `state.all_on` defined. */
  predicate IsGroupResource(resource: JsValue)
    ensures IsGroupResource(resource) ==>
      resource.Obj? && Prop(resource, "state").Obj? && Lookup(resource.fields, "type") == Some(Str("LightGroup"))
  {
    && Prop(resource, "type") == Str("LightGroup")
    && Prop(resource, "devicemembership") != Undefined
    && Prop(Prop(resource, "state"), "all_on") != Undefined
  }

  /** `isSensorResource`: sensors are recognised only by being neither of the others. */
  predicate IsSensorResource(resource: JsValue)
    ensures !resource.Obj? ==> IsSensorResource(resource)
  {
    !IsGroupResource(resource) && !IsLightResource(resource)
  }

  /** What the guards decide, seen from the outside: only objects with an object
      `state` can be lights or groups; everything else, `null` and `undefined`
      included, is classified as a sensor. */
  lemma NonObjectsAreSensors(resource: JsValue)
    requires !resource.Obj? || !Prop(resource, "state").Obj?
    ensures !IsLightResource(resource) && !IsGroupResource(resource)
    ensures IsSensorResource(resource)
  {
  }

  /** A group must carry the literal type `LightGroup`; a light whose `type`
      is anything else is never also taken for a group. */
  lemma LightsWithOtherTypesAreNotGroups(resource: JsValue)
    requires IsLightResource(resource) && Prop(resource, "type") != Str("LightGroup")
    ensures !IsGroupResource(resource) && !IsSensorResource(resource)
  {
  }

  /** The object literal `{hascolor, type: "LightGroup", devicemembership,
      state: {on, all_on}}`, built as the literal assigns its properties: in
      order, onto an empty object. */
  function LightGroupLookalike(hascolor: JsValue, membership: JsValue, on: JsValue, allOn: JsValue): JsValue
  {
    Obj(Put(LookalikeOwn(hascolor, membership), "state", Obj(LookalikeState(on, allOn))))
  }

  /** `{on, all_on}` */
  function LookalikeState(on: JsValue, allOn: JsValue): Assoc<JsValue>
  {
    Put(Put([], "on", on), "all_on", allOn)
  }

  /** `{hascolor, type: "LightGroup", devicemembership}`, before `state` is assigned. */
  function LookalikeOwn(hascolor: JsValue, membership: JsValue): Assoc<JsValue>
  {
    Put(Put(Put([], "hascolor", hascolor), "type", Str("LightGroup")), "devicemembership", membership)
  }

  /** The light and group guards are not exclusive: a `LightGroup` that also
      carries `hascolor` and `state.on` passes both, and so is no sensor. */
  lemma LightAndGroupOverlap(hascolor: JsValue, membership: JsValue, on: JsValue, allOn: JsValue)
    requires hascolor != Undefined && membership != Undefined && on != Undefined && allOn != Undefined
    ensures var resource := LightGroupLookalike(hascolor, membership, on, allOn);
      IsLightResource(resource) && IsGroupResource(resource) && !IsSensorResource(resource)
  {
    LookalikeReads(hascolor, membership, on, allOn);
  }

  /** The properties the guards read, on the lookalike. */
  lemma LookalikeReads(hascolor: JsValue, membership: JsValue, on: JsValue, allOn: JsValue)
    ensures var resource := LightGroupLookalike(hascolor, membership, on, allOn);
      && Prop(resource, "hascolor") == hascolor
      && Prop(resource, "type") == Str("LightGroup")
      && Prop(resource, "devicemembership") == membership
      && Prop(Prop(resource, "state"), "on") == on
      && Prop(Prop(resource, "state"), "all_on") == allOn
  {
    LookalikeOwnReads(hascolor, membership, Obj(LookalikeState(on, allOn)));
    LookalikeStateReads(LookalikeOwn(hascolor, membership), on, allOn);
  }

  lemma LookalikeOwnReads(hascolor: JsValue, membership: JsValue, state: JsValue)
    ensures var fields := Put(LookalikeOwn(hascolor, membership), "state", state);
      && Lookup(fields, "hascolor") == Some(hascolor)
      && Lookup(fields, "type") == Some(Str("LightGroup"))
      && Lookup(fields, "devicemembership") == Some(membership)
  {
    var own := LookalikeOwn(hascolor, membership);
    OwnReads(hascolor, membership);
    LookupPut(own, "state", state, "hascolor");
    LookupPut(own, "state", state, "type");
    LookupPut(own, "state", state, "devicemembership");
  }

  lemma LookalikeStateReads(own: Assoc<JsValue>, on: JsValue, allOn: JsValue)
    ensures var state := Prop(Obj(Put(own, "state", Obj(LookalikeState(on, allOn)))), "state");
      Prop(state, "on") == on && Prop(state, "all_on") == allOn
  {
    LookupPut(own, "state", Obj(LookalikeState(on, allOn)), "state");
    StateReads(on, allOn);
  }

  lemma StateReads(on: JsValue, allOn: JsValue)
    ensures Lookup(LookalikeState(on, allOn), "on") == Some(on)
    ensures Lookup(LookalikeState(on, allOn), "all_on") == Some(allOn)
  {
    var s1 := Put([], "on", on);
    LookupPut(s1, "all_on", allOn, "on");
    LookupPut([], "on", on, "on");
    LookupPut(s1, "all_on", allOn, "all_on");
  }

  lemma OwnReads(hascolor: JsValue, membership: JsValue)
    ensures var own := LookalikeOwn(hascolor, membership);
      && Lookup(own, "hascolor") == Some(hascolor)
      && Lookup(own, "type") == Some(Str("LightGroup"))
      && Lookup(own, "devicemembership") == Some(membership)
  {
    var p1 := Put([], "hascolor", hascolor);
    var p2 := Put(p1, "type", Str("LightGroup"));
    LookupPut([], "hascolor", hascolor, "hascolor");
    LookupPut(p1, "type", Str("LightGroup"), "hascolor");
    LookupPut(p1, "type", Str("LightGroup"), "type");
    LookupPut(p2, "devicemembership", membership, "hascolor");
    LookupPut(p2, "devicemembership", membership, "type");
    LookupPut(p2, "devicemembership", membership, "devicemembership");
  }
}
