/**
 * The values a handler reads out of a JSON request body. Only the shapes the
 * handlers distinguish are kept: a missing key, `null`, a string, a number, a
 * boolean. Arrays and objects are not part of this model.
 */
module Json {

  datatype Value = Undefined | Null | Str(s: string) | Num(n: real) | Bool(b: bool)

  /** JavaScript truthiness: `undefined`, `null`, `""`, `0` and `false` are falsy. */
  predicate Truthy(v: Value) {
    match v
    case Undefined => false
    case Null => false
    case Str(s) => s != ""
    case Num(n) => n != 0.0
    case Bool(b) => b
  }

  /** The JavaScript expression `a || b`. */
  function Or(a: Value, b: Value): (r: Value)
    ensures Truthy(a) ==> r == a
    ensures !Truthy(a) ==> r == b
  {
    if Truthy(a) then a else b
  }
}
