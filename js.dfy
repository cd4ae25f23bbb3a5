/** The fragment of JavaScript's value semantics that the restart hook relies
    on: property lookup on a plain object, truthiness (as used by `if (x)`,
    `x && y` and `x || y`) and strict equality (`===`, `!==`). */
module Js {

  /** A JavaScript value. Numbers are restricted to integers (plus NaN);
      objects, arrays and functions are identified by a reference only, which
      is all that strict equality looks at. */
  datatype JsValue =
    | Undefined
    | Null
    | Bool(b: bool)
    | Num(n: int)
    | NaN
    | Str(s: string)
    | Obj(ref: nat)

  /** A plain object seen as its own enumerable properties. */
  type JsObject = map<string, JsValue>

  /** `o[key]`: a missing property reads as `undefined`. */
  function Get(o: JsObject, key: string): JsValue
  {
    if key in o then o[key] else Undefined
  }

  /** ToBoolean: `undefined`, `null`, `false`, `0`, `NaN` and `""` are falsy,
      everything else (every object in particular) is truthy. */
  predicate Truthy(v: JsValue)
  {
    match v
    case Undefined => false
    case Null => false
    case Bool(b) => b
    case Num(n) => n != 0
    case NaN => false
    case Str(s) => s != ""
    case Obj(_) => true
  }

  /** `a === b`: same type and same value, objects by identity, and `NaN` is
      equal to nothing, not even itself. */
  predicate StrictEquals(a: JsValue, b: JsValue)
  {
    a == b && !a.NaN?
  }
}
