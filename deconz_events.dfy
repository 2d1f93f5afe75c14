/** The event emitter over the gateway socket (src/deconz/DeconzEvents.ts):
    every decoded push message is announced under a chain of event names, from
    the most specific to the catch-all `event`. */
module DeconzEvents {
  import opened Js

  /** The specific names for a message with event type `e`, truthiness of its
      `state` and `attr` fields, and resource id `r` rendered as a template
      literal renders it (`undefined` when the message has none). */
  function KindEvents(e: JsValue, state: bool, attr: bool, r: string): seq<string>
  {
    if e == Str("changed") && state then ["event-state", "event-state-" + r]
    else if e == Str("changed") && attr then ["event-attr", "event-attr-" + r]
    else if e == Str("scene-called") then ["event-scene-called"]
    else if e == Str("added") then ["event-added", "event-added-" + r]
    else if e == Str("deleted") then ["event-deleted", "event-deleted-" + r]
    else []
  }

  /** The names `onMessage` emits for `data`, in emission order. */
  function EventNames(data: JsValue): seq<string>
  {
    if !Accepted(data) then []
    else
      KindEvents(Prop(data, "e"), Truthy(Prop(data, "state")), Truthy(Prop(data, "attr")), ToStr(Prop(data, "r")))
      + ["event"]
  }

  predicate Accepted(data: JsValue)
  {
    Truthy(data) && Prop(data, "t") == Str("event")
  }

  function Count(names: seq<string>, name: string): nat
  {
    if names == [] then 0 else (if names[0] == name then 1 else 0) + Count(names[1..], name)
  }

  /** The emitter: `emitted` is the log of event names emitted so far. */
  class DeconzEvents {
    var emitted: seq<string>

    constructor()
      ensures emitted == []
    {
      emitted := [];
    }

    method Emit(name: string)
      modifies this
      ensures emitted == old(emitted) + [name]
    {
      emitted := emitted + [name];
    }

    /** `onMessage`: the ordered chain of `emit` calls for one message. */
    method OnMessage(data: JsValue)
      modifies this
      ensures emitted == old(emitted) + EventNames(data)
    {
      if !Accepted(data) {
        IgnoredMessages(data);
        return;
      }
      var e, r := Prop(data, "e"), ToStr(Prop(data, "r"));
      var state, attr := Truthy(Prop(data, "state")), Truthy(Prop(data, "attr"));
      ghost var before := emitted;
      EventNamesOfAccepted(data);
      EmitKind(e, state, attr, r);
      Emit("event");
      AppendAssoc(before, KindEvents(e, state, attr, r), "event");
    }

    /** The kind-specific part of the chain of `emit` calls. */
    method EmitKind(e: JsValue, state: bool, attr: bool, r: string)
      modifies this
      ensures emitted == old(emitted) + KindEvents(e, state, attr, r)
    {
      if e == Str("changed") && state {
        KindOfStateChange(attr, r);
        Emit("event-state");
        Emit("event-state-" + r);
      } else if e == Str("changed") && attr {
        KindOfAttrChange(r);
        Emit("event-attr");
        Emit("event-attr-" + r);
      } else if e == Str("scene-called") {
        KindOfSceneCalled(e, state, attr, r);
        Emit("event-scene-called");
      } else if e == Str("added") {
        KindOfAdded(e, state, attr, r);
        Emit("event-added");
        Emit("event-added-" + r);
      } else if e == Str("deleted") {
        KindOfDeleted(e, state, attr, r);
        Emit("event-deleted");
        Emit("event-deleted-" + r);
      } else {
        NoKindForOther(e, state, attr, r);
      }
    }
  }

  // The specific names of each kind of event, for any resource id.

  lemma KindOfStateChange(attr: bool, r: string)
    ensures KindEvents(Str("changed"), true, attr, r) == ["event-state", "event-state-" + r]
  {
  }

  lemma KindOfAttrChange(r: string)
    ensures KindEvents(Str("changed"), false, true, r) == ["event-attr", "event-attr-" + r]
  {
  }

  lemma KindOfSceneCalled(e: JsValue, state: bool, attr: bool, r: string)
    requires e == Str("scene-called")
    ensures KindEvents(e, state, attr, r) == ["event-scene-called"]
  {
  }

  lemma KindOfAdded(e: JsValue, state: bool, attr: bool, r: string)
    requires e == Str("added")
    ensures KindEvents(e, state, attr, r) == ["event-added", "event-added-" + r]
  {
  }

  lemma KindOfDeleted(e: JsValue, state: bool, attr: bool, r: string)
    requires e == Str("deleted")
    ensures KindEvents(e, state, attr, r) == ["event-deleted", "event-deleted-" + r]
  {
  }

  lemma NoKindForOther(e: JsValue, state: bool, attr: bool, r: string)
    requires !(e == Str("changed") && (state || attr))
    requires e != Str("scene-called") && e != Str("added") && e != Str("deleted")
    ensures KindEvents(e, state, attr, r) == []
  {
  }

  /** A proof-cost helper, not a fact about the source: associativity of
      the event-log concatenation, stated once so `OnMessage` stays small. */
  lemma AppendAssoc(a: seq<string>, b: seq<string>, x: string)
    ensures a + b + [x] == a + (b + [x])
  {
  }

  /** A falsy message, or one whose `t` is not `event`, emits nothing. */
  lemma IgnoredMessages(data: JsValue)
    ensures EventNames(data) == [] <==> !Accepted(data)
  {
  }

  /** An accepted message's names: the specific ones, then `event`. */
  lemma EventNamesOfAccepted(data: JsValue)
    requires Accepted(data)
    ensures EventNames(data)
         == KindEvents(Prop(data, "e"), Truthy(Prop(data, "state")), Truthy(Prop(data, "attr")), ToStr(Prop(data, "r"))) + ["event"]
  {
  }

  /** `changed` with a truthy `state` announces a state change, whatever `attr` holds. */
  lemma StateChange(data: JsValue)
    requires Accepted(data) && Prop(data, "e") == Str("changed") && Truthy(Prop(data, "state"))
    ensures EventNames(data) == ["event-state", "event-state-" + ToStr(Prop(data, "r")), "event"]
  {
    EventNamesOfAccepted(data);
    KindOfStateChange(Truthy(Prop(data, "attr")), ToStr(Prop(data, "r")));
  }

  /** `changed` with a truthy `attr` and no `state` announces an attribute change. */
  lemma AttrChange(data: JsValue)
    requires Accepted(data) && Prop(data, "e") == Str("changed")
    requires !Truthy(Prop(data, "state")) && Truthy(Prop(data, "attr"))
    ensures EventNames(data) == ["event-attr", "event-attr-" + ToStr(Prop(data, "r")), "event"]
  {
    EventNamesOfAccepted(data);
    KindOfAttrChange(ToStr(Prop(data, "r")));
  }

  /** `changed` with neither `state` nor `attr` (a rename, a config change)
      reaches only the catch-all listeners. */
  lemma BareChange(data: JsValue)
    requires Accepted(data) && Prop(data, "e") == Str("changed")
    requires !Truthy(Prop(data, "state")) && !Truthy(Prop(data, "attr"))
    ensures EventNames(data) == ["event"]
  {
    EventNamesOfAccepted(data);
    NoKindForOther(Prop(data, "e"), false, false, ToStr(Prop(data, "r")));
  }


  lemma SceneCalled(data: JsValue)
    requires Accepted(data) && Prop(data, "e") == Str("scene-called")
    ensures EventNames(data) == ["event-scene-called", "event"]
  {
    EventNamesOfAccepted(data);
    KindOfSceneCalled(Prop(data, "e"), Truthy(Prop(data, "state")), Truthy(Prop(data, "attr")), ToStr(Prop(data, "r")));
  }

  lemma Added(data: JsValue)
    requires Accepted(data) && Prop(data, "e") == Str("added")
    ensures EventNames(data) == ["event-added", "event-added-" + ToStr(Prop(data, "r")), "event"]
  {
    EventNamesOfAccepted(data);
    KindOfAdded(Prop(data, "e"), Truthy(Prop(data, "state")), Truthy(Prop(data, "attr")), ToStr(Prop(data, "r")));
  }

  lemma Deleted(data: JsValue)
    requires Accepted(data) && Prop(data, "e") == Str("deleted")
    ensures EventNames(data) == ["event-deleted", "event-deleted-" + ToStr(Prop(data, "r")), "event"]
  {
    EventNamesOfAccepted(data);
    KindOfDeleted(Prop(data, "e"), Truthy(Prop(data, "state")), Truthy(Prop(data, "attr")), ToStr(Prop(data, "r")));
  }

  /** Any other event type (and `changed` with neither `state` nor `attr`)
      reaches only the catch-all listeners. */
  lemma OtherEvents(data: JsValue)
    requires Accepted(data)
    requires Prop(data, "e") !in {Str("changed"), Str("scene-called"), Str("added"), Str("deleted")}
    ensures EventNames(data) == ["event"]
  {
    EventNamesOfAccepted(data);
    NoKindForOther(Prop(data, "e"), Truthy(Prop(data, "state")), Truthy(Prop(data, "attr")), ToStr(Prop(data, "r")));
  }

  /** Every accepted message reaches the catch-all `event` listeners exactly
      once, and last, after the specific listeners. */
  lemma {:induction false} CatchAllExactlyOnceAndLast(data: JsValue)
    requires Accepted(data)
    ensures |EventNames(data)| >= 1 && EventNames(data)[|EventNames(data)| - 1] == "event"
    ensures Count(EventNames(data), "event") == 1
  {
    var e, r := Prop(data, "e"), ToStr(Prop(data, "r"));
    var state, attr := Truthy(Prop(data, "state")), Truthy(Prop(data, "attr"));
    var k := KindEvents(e, state, attr, r);
    assert EventNames(data) == k + ["event"];
    SpecificNamesAreNotCatchAll(e, state, attr, r);
    CountAppend(k, ["event"], "event");
    assert Count(["event"], "event") == 1 + Count([], "event");
  }

  lemma {:induction false} SpecificNamesAreNotCatchAll(e: JsValue, state: bool, attr: bool, r: string)
    ensures Count(KindEvents(e, state, attr, r), "event") == 0
  {
    var k := KindEvents(e, state, attr, r);
    if |k| == 1 {
      assert k[0] != "event";
      assert Count(k, "event") == Count(k[1..], "event");
    } else if |k| == 2 {
      assert |k[0]| > 5 && |k[1]| > 5;
      assert Count(k, "event") == Count(k[1..], "event");
      assert Count(k[1..], "event") == Count(k[2..], "event");
    }
  }

  lemma {:induction false} CountAppend(a: seq<string>, b: seq<string>, name: string)
    ensures Count(a + b, name) == Count(a, name) + Count(b, name)
  {
    if a == [] {
      assert a + b == b;
    } else {
      assert (a + b)[0] == a[0];
      assert (a + b)[1..] == a[1..] + b;
      CountAppend(a[1..], b, name);
    }
  }
}
