/**
 * The equality policy shared by `createTracker`, `createReactive` and
 * `createRefSignal`, and the argument their setters accept.
 */
module Equality {
  import opened Js

  /**
   * The `equals` option: absent (compare with `===`), a function called as
   * `equals(current, next)`, or any other value, which the cell returns as is
   * (`equals: false` makes every set a change).
   */
  datatype EqualsOption =
    | DefaultEquals
    | CustomEquals(f: (JsValue, JsValue) -> bool)
    | FixedEquals(b: bool)

  /** The source's `_equals(next)` with `current` the value read before the write. */
  predicate Same(eq: EqualsOption, current: JsValue, next: JsValue)
  {
    match eq
    case DefaultEquals => StrictEquals(current, next)
    case CustomEquals(f) => f(current, next)
    case FixedEquals(b) => b
  }

  /** A set writes and triggers exactly when the policy does not call the values the same. */
  predicate Writes(eq: EqualsOption, current: JsValue, next: JsValue)
  {
    !Same(eq, current, next)
  }

  /** The setter's argument: a value, or a function applied to the current value. */
  datatype Update = Assign(v: JsValue) | Apply(f: JsValue -> JsValue)

  /** `typeof arg === 'function' ? arg(current) : arg` */
  function NewValue(arg: Update, current: JsValue): (r: JsValue)
    ensures arg.Assign? ==> r == arg.v
    ensures arg.Apply? ==> r == arg.f(current)
  {
    match arg
    case Assign(v) => v
    case Apply(f) => f(current)
  }

  /**
   * The three policies: with `===` an equal value (other than NaN) is not
   * written, `equals: false` always writes, and a custom `equals` writes
   * exactly when it returns false.
   */
  lemma WritesByPolicy(current: JsValue, next: JsValue)
    ensures Writes(DefaultEquals, current, next) <==> current != next || next == Num(NaN)
    ensures Writes(FixedEquals(false), current, next)
    ensures forall f :: Writes(CustomEquals(f), current, next) <==> !f(current, next)
  {
  }

  /** Under `===`, setting the value a cell already holds is a no-op, except for NaN. */
  lemma DefaultSettles(v: JsValue)
    ensures !Writes(DefaultEquals, v, v) <==> v != Num(NaN)
  {
  }
}
