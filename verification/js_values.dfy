/**
 This module models the JavaScript values that reach the error-reporting
 middleware as an action payload, together with the two language operations
 the middleware applies to them: `typeof` and property reads (plain `.` and
 optional-chaining `?.`).

 Arrays are not a separate case: a JavaScript array is an object whose keys
 are its index strings, so it is represented as an `Object`. Numbers are
 integers here; no floating point is modelled.
 */
module JsValues {

  datatype JsValue =
    | Undefined
    | Null
    | Bool(b: bool)
    | Number(n: int)
    | Str(s: string)
    | Object(fields: map<string, JsValue>)
    | Function

  /** JavaScript's `typeof`, including its answer "object" for `null`. */
  function TypeOf(v: JsValue): (t: string)
    ensures t == "object" <==> v.Null? || v.Object?
    ensures t == "string" <==> v.Str?
  {
    match v
    case Undefined => "undefined"
    case Null => "object"
    case Bool(_) => "boolean"
    case Number(_) => "number"
    case Str(_) => "string"
    case Object(_) => "object"
    case Function => "function"
  }

  /** `null` and `undefined`: the values on which a property read throws. */
  predicate IsNullish(v: JsValue) {
    v.Undefined? || v.Null?
  }

  /** The `key in v` operator, which JavaScript only allows on objects. */
  predicate HasProperty(v: JsValue, key: string)
    requires v.Object?
  {
    key in v.fields
  }

  /**
   The property read `v.key` on a value that is neither `null` nor
   `undefined`. Only objects carry the keys this model reads; a primitive
   or a function yields `undefined` for them.
   */
  function Get(v: JsValue, key: string): (r: JsValue)
    requires !IsNullish(v)
    ensures v.Object? && key in v.fields ==> r == v.fields[key]
    ensures !r.Undefined? ==> v.Object? && key in v.fields && r == v.fields[key]
  {
    match v
    case Object(fields) => if key in fields then fields[key] else Undefined
    case _ => Undefined
  }

  /** The optional-chaining read `v?.key`: `undefined` when `v` is nullish. */
  function OptionalGet(v: JsValue, key: string): (r: JsValue)
    ensures IsNullish(v) ==> r.Undefined?
    ensures !IsNullish(v) ==> r == Get(v, key)
  {
    if IsNullish(v) then Undefined else Get(v, key)
  }
}
