/**
 * `createArray(initialValue)` (src/array.ts): a signal holding an array.
 * The setter either replaces the array, or copies it and lets a patcher
 * edit the copy in place, leaving the previous array untouched.
 */
module ArraySignal {
  import opened Wrappers

  /** A JavaScript array: a mutable, resizable list. */
  class JsArray<T> {
    var elems: seq<T>

    constructor (elems: seq<T>)
      ensures this.elems == elems
    {
      this.elems := elems;
    }
  }

  /**
   * The setter's argument: an array to store, or a patcher that edits the
   * array it is given in place. A patcher is modelled by the contents it
   * leaves; whatever it returns is ignored.
   */
  datatype Patch<!T> = Replace(arr: JsArray<T>) | Patcher(edit: seq<T> -> seq<T>)

  class ArrayState<T> {
    /** The array the signal currently holds. */
    var value: JsArray<T>

    /** A missing initial value gives a fresh empty array. */
    constructor (initialValue: Option<JsArray<T>>)
      ensures initialValue.Some? ==> value == initialValue.value
      ensures initialValue.None? ==> fresh(value) && value.elems == []
    {
      if initialValue.Some? {
        value := initialValue.value;
      } else {
        value := new JsArray([]);
      }
    }

    /**
     * `setArray(patcher)`: a given array becomes the state as it is; a
     * patcher runs on a fresh shallow copy (`[...data]`), which becomes the
     * state. Returns the new state.
     */
    method Set(patch: Patch<T>) returns (r: JsArray<T>)
      modifies this
      ensures r == value
      ensures patch.Replace? ==> value == patch.arr
      ensures patch.Patcher? ==>
                && fresh(value)
                && value.elems == patch.edit(old(value.elems))
                && old(value).elems == old(value.elems)
    {
      match patch {
        case Replace(arr) =>
          value := arr;
        case Patcher(edit) =>
          var copy := new JsArray(value.elems);
          copy.elems := edit(copy.elems);
          value := copy;
      }
      r := value;
    }
  }
}
