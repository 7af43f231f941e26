/** The fragment of JavaScript values and operators that server/redis.js relies on. */
module Js {

  /** JavaScript values, as data. A finite number is a real (so `-0` and `0` coincide, which
      no operation here can tell apart); `NaN` is its own case, and the infinities are not
      modelled. Objects are compared by content rather than identity. An `Obj` is a plain
      object with its own enumerable properties, an `ErrorObj` an `Error` instance carrying
      the `code` property that Node sets on socket errors. */
  datatype Value =
    | Undefined
    | Null
    | Bool(b: bool)
    | Num(n: real)
    | NaN
    | Str(s: string)
    | Arr(elems: seq<Value>)
    | Obj(fields: map<string, Value>)
    | ErrorObj(message: string, code: Value)

  /** JavaScript's ToBoolean: exactly `undefined`, `null`, `false`, `0`, `NaN` and `""` are
      falsy; every object, including an empty array or object, is truthy. */
  predicate Truthy(v: Value)
    ensures !Truthy(v) <==> v in {Undefined, Null, Bool(false), Num(0.0), NaN, Str("")}
    ensures v.Arr? || v.Obj? || v.ErrorObj? ==> Truthy(v)
  {
    match v
    case Undefined => false
    case Null => false
    case Bool(b) => b
    case Num(n) => n != 0.0
    case NaN => false
    case Str(s) => s != ""
    case Arr(_) => true
    case Obj(_) => true
    case ErrorObj(_, _) => true
  }

  /** `a || b` on two side-effect-free operands: yields an operand, not a boolean. */
  function Or(a: Value, b: Value): (r: Value)
    ensures r == a || r == b
    ensures Truthy(r) <==> Truthy(a) || Truthy(b)
    ensures Truthy(a) ==> r == a
    ensures !Truthy(a) ==> r == b
  {
    if Truthy(a) then a else b
  }

  /** Reading the property `code` of a value. Only truthy values may be read here: on
      `undefined` or `null` JavaScript throws, and server/redis.js only reads `code` behind a
      truthiness guard. Primitives and arrays have no `code` property; a plain object has
      one when it is among its fields. */
  function CodeOf(v: Value): (c: Value)
    requires Truthy(v)
    ensures !v.ErrorObj? && !v.Obj? ==> c == Undefined
    ensures v.ErrorObj? ==> c == v.code
    ensures v.Obj? && "code" in v.fields ==> c == v.fields["code"]
    ensures v.Obj? && "code" !in v.fields ==> c == Undefined
  {
    match v
    case ErrorObj(_, code) => code
    case Obj(fields) => if "code" in fields then fields["code"] else Undefined
    case _ => Undefined
  }
}
