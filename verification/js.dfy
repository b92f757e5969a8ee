/**
 * The part of JavaScript's value semantics that the hooks depend on:
 * truthiness, nullishness (`??`) and strict equality (`===`).
 */
module Js {

  /** A JavaScript number; NaN is kept because `NaN !== NaN`. */
  datatype JsNumber = Finite(r: real) | NaN | Infinity(negative: bool)

  /** A JavaScript value as the hooks see it; objects are compared by identity. */
  datatype JsValue =
    | Undefined
    | Null
    | Bool(b: bool)
    | Num(n: JsNumber)
    | Str(s: string)
    | Obj(id: nat)

  /** `!!v`: false exactly for undefined, null, false, 0, NaN and ''. */
  predicate Truthy(v: JsValue)
  {
    match v
    case Undefined => false
    case Null => false
    case Bool(b) => b
    case Num(n) => !(n.NaN? || n == Finite(0.0))
    case Str(s) => s != ""
    case Obj(_) => true
  }

  /** `v == null`: the values that `??` replaces. */
  predicate Nullish(v: JsValue)
  {
    v.Undefined? || v.Null?
  }

  /** `a ?? b` */
  function Coalesce(a: JsValue, b: JsValue): (r: JsValue)
    ensures !Nullish(a) ==> r == a
    ensures Nullish(a) ==> r == b
  {
    if Nullish(a) then b else a
  }

  /** `a === b`: structural on primitives, identity on objects, and NaN equals nothing. */
  predicate StrictEquals(a: JsValue, b: JsValue)
  {
    a == b && a != Num(NaN)
  }

  lemma StrictEqualsSymmetric(a: JsValue, b: JsValue)
    ensures StrictEquals(a, b) <==> StrictEquals(b, a)
  {
  }

  /** `===` is reflexive on every value except NaN. */
  lemma StrictEqualsReflexiveButNaN(a: JsValue)
    ensures StrictEquals(a, a) <==> a != Num(NaN)
  {
  }
}
