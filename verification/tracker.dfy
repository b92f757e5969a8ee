/**
 * `createTracker(data, key, options)` (src/tracker.ts): a signal over one
 * property of a plain object. Reading returns `data[key]`; setting computes
 * the new value, and only when the equality policy calls it a change does it
 * assign it (or hand it to the custom setter) and fire the trigger signal.
 */
module Tracker {
  import opened Wrappers
  import opened Js
  import opened Equality
  import opened Objects

  /** A custom setter, modelled by the object state it leaves behind. */
  type Setter = (map<string, JsValue>, JsValue) -> map<string, JsValue>

  class Property {
    /** The tracked object, shared with whoever else holds it. */
    const data: JsObject
    const key: string
    const equals: EqualsOption
    const setter: Option<Setter>
    /** How many times the internal `trigger` signal has fired. */
    var triggers: nat

    constructor (data: JsObject, key: string, equals: EqualsOption, setter: Option<Setter>)
      ensures this.data == data && this.key == key && this.equals == equals && this.setter == setter
      ensures triggers == 0
    {
      this.data := data;
      this.key := key;
      this.equals := equals;
      this.setter := setter;
      triggers := 0;
    }

    /** The getter: the current `data[key]`. */
    function Get(): (v: JsValue)
      reads this, data
      ensures key in data.fields ==> v == data.fields[key]
      ensures key !in data.fields ==> v == Undefined
    {
      data.Read(key)
    }

    /**
     * The setter. It returns the computed value whether or not it wrote.
     * When the policy reports a change, the default assignment changes only
     * `data[key]` and the trigger fires once; otherwise nothing changes.
     */
    method Set(arg: Update) returns (r: JsValue)
      modifies this, data
      ensures r == NewValue(arg, old(Get()))
      ensures !Writes(equals, old(Get()), r) ==> data.fields == old(data.fields) && triggers == old(triggers)
      ensures Writes(equals, old(Get()), r) ==> triggers == old(triggers) + 1
      ensures Writes(equals, old(Get()), r) && setter.None? ==>
                && data.fields.Keys == old(data.fields.Keys) + {key}
                && Get() == r
                && (forall k :: k in old(data.fields) && k != key ==> data.fields[k] == old(data.fields[k]))
      ensures Writes(equals, old(Get()), r) && setter.Some? ==> data.fields == setter.value(old(data.fields), r)
    {
      var current := data.Read(key);
      r := NewValue(arg, current);
      if !Same(equals, current, r) {
        if setter.Some? {
          data.fields := setter.value(data.fields, r);
        } else {
          data.fields := data.fields[key := r];
        }
        triggers := triggers + 1;
      }
    }
  }

  /**
   * With the default assignment and `===`, setting the same value twice
   * triggers at most once: the second set finds the value already there.
   */
  method SetTwice(p: Property, v: JsValue) returns (first: JsValue, second: JsValue)
    requires p.equals.DefaultEquals? && p.setter.None? && v != Num(NaN)
    modifies p, p.data
    ensures first == v && second == v && p.Get() == v
    ensures p.triggers <= old(p.triggers) + 1
    ensures old(p.Get()) == v ==> p.triggers == old(p.triggers) && p.data.fields == old(p.data.fields)
  {
    first := p.Set(Assign(v));
    second := p.Set(Assign(v));
  }
}
