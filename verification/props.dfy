/**
 * `useProps(props, keys, defaults)` (src/props.ts): splits a props object
 * into `pick` and `rest`. Each key in `keys` becomes an enumerable getter
 * (a memo reading `props[key] ?? defaults[key]`) defined on `pick` when the
 * key is in `new Set(keys)` and on `rest` otherwise. Since every key
 * iterated is taken from `keys`, `rest` never receives a property.
 */
module Props {
  import opened Wrappers
  import opened Js

  /** The memo defined for `key`; it reads the props each time it is evaluated. */
  datatype Memo = Memo(key: string)

  function Lookup(obj: map<string, JsValue>, key: string): JsValue
  {
    if key in obj then obj[key] else Undefined
  }

  /** What the getter for `m` returns for the current props: `props[key] ?? defaults[key]`. */
  function Evaluate(m: Memo, props: map<string, JsValue>, defaults: map<string, JsValue>): (v: JsValue)
    ensures !Nullish(Lookup(props, m.key)) ==> v == Lookup(props, m.key)
    ensures Nullish(Lookup(props, m.key)) ==> v == Lookup(defaults, m.key)
  {
    Coalesce(Lookup(props, m.key), Lookup(defaults, m.key))
  }

  /** Falsy but present values (0, '', false) are kept rather than defaulted. */
  lemma FalsyKept(props: map<string, JsValue>, defaults: map<string, JsValue>, key: string)
    requires key in props && !Truthy(props[key]) && !Nullish(props[key])
    ensures Evaluate(Memo(key), props, defaults) == props[key]
  {
  }

  /** `Object.defineProperty` throws when a non-configurable property is defined again. */
  datatype PropsError = CannotRedefine(key: string)

  predicate NoDuplicates(keys: seq<string>)
  {
    forall i, j :: 0 <= i < j < |keys| ==> keys[i] != keys[j]
  }

  /**
   * The loop of `useProps`. Every key of `keys` is defined on `pick`, no key
   * outside `keys` is, and `rest` stays empty. A key listed twice makes the
   * second `defineProperty` throw, since the first definition is not
   * configurable.
   */
  method UseProps(keys: seq<string>) returns (r: Result<(map<string, Memo>, map<string, Memo>), PropsError>)
    ensures r.Ok? <==> NoDuplicates(keys)
    ensures r.Ok? ==>
              && r.value.0.Keys == set k | k in keys
              && (forall k :: k in r.value.0 ==> r.value.0[k] == Memo(k))
              && r.value.1 == map[]
    ensures r.Err? ==> exists i, j :: 0 <= i < j < |keys| && keys[i] == keys[j] == r.error.key
  {
    var pick: map<string, Memo> := map[];
    var rest: map<string, Memo> := map[];
    var keySet := set k | k in keys;
    var i := 0;
    while i < |keys|
      invariant 0 <= i <= |keys|
      invariant NoDuplicates(keys[..i])
      invariant pick.Keys == set k | k in keys[..i]
      invariant forall k :: k in pick ==> pick[k] == Memo(k)
      invariant rest == map[]
    {
      var key := keys[i];
      if key in pick || key in rest {
        var j :| 0 <= j < i && keys[j] == key;
        return Err(CannotRedefine(key));
      }
      if key in keySet {
        pick := pick[key := Memo(key)];
      } else {
        rest := rest[key := Memo(key)];
      }
      assert keys[..i + 1] == keys[..i] + [key];
      i := i + 1;
    }
    assert keys[..i] == keys;
    r := Ok((pick, rest));
  }
}
