/**
 * `createReactive(data, key, options)` (src/reactive.ts) has the same body
 * as `createTracker`, and src/tracker.ts also exports it as a deprecated
 * alias; it is modelled as building the same property cell.
 */
module Reactive {
  import opened Wrappers
  import opened Equality
  import opened Objects
  import Tracker

  method CreateReactive(data: JsObject, key: string, equals: EqualsOption, setter: Option<Tracker.Setter>)
    returns (cell: Tracker.Property)
    ensures fresh(cell)
    ensures cell.data == data && cell.key == key && cell.equals == equals && cell.setter == setter
    ensures cell.triggers == 0 && cell.Get() == data.Read(key)
  {
    cell := new Tracker.Property(data, key, equals, setter);
  }
}
