/**
 * `createRefSignal(data, path, options)` (src/ref-signal.ts): the same
 * equality gate as `createTracker`, over a value reached by a path.
 * `pathGet` and `pathSet` are not part of this model; they are kept as a
 * pair of functions over the object's state.
 */
module RefSignal {
  import opened Wrappers
  import opened Js
  import opened Equality

  /** `pathSet` followed by `pathGet` on the same path reads back what was set. */
  ghost predicate PutGet<S(!new)>(get: S -> JsValue, put: (S, JsValue) -> S)
  {
    forall s, v :: get(put(s, v)) == v
  }

  class Cell<S(!new)> {
    /** The state of the source object. */
    var data: S
    /** `pathGet(data, path)` */
    const get: S -> JsValue
    /** `pathSet(data, path, value)` */
    const put: (S, JsValue) -> S
    const equals: EqualsOption
    var triggers: nat
    /** The last value the setter passed to `pathSet`, if any. */
    ghost var written: Option<JsValue>

    /** When the path reads back, the state holds the last value written. */
    ghost predicate Valid()
      reads this
    {
      written.Some? && PutGet(get, put) ==> get(data) == written.value
    }

    constructor (data: S, get: S -> JsValue, put: (S, JsValue) -> S, equals: EqualsOption)
      ensures this.data == data && this.get == get && this.put == put && this.equals == equals
      ensures triggers == 0 && written == None && Valid()
    {
      this.data := data;
      this.get := get;
      this.put := put;
      this.equals := equals;
      triggers := 0;
      written := None;
    }

    /** The getter: the value at the path. */
    function Get(): (v: JsValue)
      reads this
      ensures Valid() && written.Some? && PutGet(get, put) ==> v == written.value
    {
      get(data)
    }

    /**
     * The setter: computes the new value from the argument and the current
     * path value, and calls `pathSet` and fires the trigger only when the
     * policy reports a change. It returns the computed value either way.
     */
    method Set(arg: Update) returns (r: JsValue)
      requires Valid()
      modifies this
      ensures Valid()
      ensures written == if Writes(equals, old(Get()), r) then Some(r) else old(written)
      ensures r == NewValue(arg, old(Get()))
      ensures !Writes(equals, old(Get()), r) ==> data == old(data) && triggers == old(triggers)
      ensures Writes(equals, old(Get()), r) ==> data == put(old(data), r) && triggers == old(triggers) + 1
      ensures Writes(equals, old(Get()), r) && PutGet(get, put) ==> Get() == r
    {
      var current := get(data);
      r := NewValue(arg, current);
      if !Same(equals, current, r) {
        data := put(data, r);
        written := Some(r);
        triggers := triggers + 1;
      }
    }
  }
}
