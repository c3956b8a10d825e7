/** The slice of JavaScript's value semantics that the popup relies on:
    truthiness, the `||` operator, default parameters and plain objects
    read by key. */
module Js {

  datatype Option<+T> = None | Some(value: T)

  /** A JavaScript value. Numbers are integers (NaN and fractions are not
      modelled); objects, elements and functions carry an identity only. */
  datatype JsValue =
    | Undefined
    | Null
    | Bool(b: bool)
    | Num(n: int)
    | Str(s: string)
    | Obj(ref: nat)
    | Fn(ref: nat)

  /** JavaScript's ToBoolean. */
  predicate Truthy(v: JsValue) {
    match v
    case Undefined => false
    case Null => false
    case Bool(b) => b
    case Num(n) => n != 0
    case Str(s) => s != ""
    case Obj(_) => true
    case Fn(_) => true
  }

  /** `a || b`: the left operand when it is truthy, otherwise the right one. */
  function Or(a: JsValue, b: JsValue): (r: JsValue)
    ensures Truthy(a) ==> r == a
    ensures !Truthy(a) ==> r == b
    ensures Truthy(r) <==> Truthy(a) || Truthy(b)
  {
    if Truthy(a) then a else b
  }

  /** A parameter declared `(x = d)`: the default replaces only `undefined`. */
  function DefaultArg(arg: JsValue, default: JsValue): JsValue {
    if arg == Undefined then default else arg
  }

  /** A plain object, key to value. A key present with value `undefined` is
      kept apart from a missing key, as object spread does. */
  type Props = map<string, JsValue>

  /** Property read `o[k]`: `undefined` for a missing key. */
  function Get(o: Props, k: string): JsValue {
    if k in o then o[k] else Undefined
  }
}
