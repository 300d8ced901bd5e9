/**
  The part of JavaScript's value model that the shipping-methods service
  touches: primitive values, plain objects, ObjectID values and Error objects,
  together with truthiness, the `||` operator and property reads.
 */
module JsValues {

  /** A JavaScript value. Numbers are kept as reals with NaN apart; floating
      point rounding is not modelled. An ObjectID is kept as its key bytes. */
  datatype Value =
    | Undefined
    | Null
    | Bool(b: bool)
    | Num(x: real)
    | NaN
    | Str(s: string)
    | ObjectId(bytes: seq<bv8>)
    | Obj(props: map<string, Value>)
    | ErrorObj(message: string)

  /** A plain object, as the map of its own enumerable properties. */
  type Document = map<string, Value>

  /** ToBoolean, section 7.1.2 of ECMA-262: the falsy values are undefined,
      null, false, +0/-0, NaN and the empty string. */
  predicate Truthy(v: Value) {
    match v
    case Undefined => false
    case Null => false
    case NaN => false
    case Bool(b) => b
    case Num(x) => x != 0.0
    case Str(s) => s != ""
    case _ => true
  }

  /** `a || b`: the left operand when it is truthy, the right one otherwise. */
  function Or(a: Value, b: Value): Value {
    if Truthy(a) then a else b
  }

  /** `obj.key` on a plain object: a missing property reads as undefined. */
  function Get(obj: Document, key: string): Value {
    if key in obj then obj[key] else Undefined
  }

  /** The settled state of a promise: resolved with a value or rejected with
      a reason. */
  datatype Outcome<T> = Resolved(value: T) | Rejected(reason: string)
}
