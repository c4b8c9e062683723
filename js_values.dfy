/**
 * The loosely typed values `JSON.parse` hands back, and the two JavaScript
 * operations the plan service applies to them: reading a property and `||`.
 */
module JsValues {
  import opened Wrappers

  /** A JSON value (RFC 8259) as JavaScript holds it after `JSON.parse`. */
  datatype JsValue =
    | Null
    | Bool(b: bool)
    | Number(n: real)
    | Str(s: string)
    | Array(items: seq<JsValue>)
    | Object(fields: map<string, JsValue>)

  /** JavaScript truthiness: `null`, `false`, `0` and `""` are falsy; every array and object is truthy. */
  predicate Truthy(v: JsValue)
    ensures v.Array? || v.Object? ==> Truthy(v)
    ensures v == Null || v == Bool(false) || v == Number(0.0) || v == Str("") ==> !Truthy(v)
  {
    match v
    case Null => false
    case Bool(b) => b
    case Number(n) => n != 0.0
    case Str(s) => s != ""
    case Array(_) => true
    case Object(_) => true
  }

  /**
   * `v.key` for a value that is not `null` (reading a property of `null`
   * throws). None stands for `undefined`: a missing key, or any value that is
   * not an object, since none of the keys the service reads is a property of
   * booleans, numbers, strings or arrays.
   */
  function Property(v: JsValue, key: string): (r: Option<JsValue>)
    requires !v.Null?
    ensures r.Some? <==> v.Object? && key in v.fields
    ensures r.Some? ==> r.value == v.fields[key]
  {
    match v
    case Object(m) => if key in m then Some(m[key]) else None
    case _ => None
  }

  /** `a || fallback` where `a` may be `undefined`: `a` when it is truthy, else the fallback. */
  function Or(a: Option<JsValue>, fallback: JsValue): (r: JsValue)
    ensures a.Some? && Truthy(a.value) ==> r == a.value
    ensures !(a.Some? && Truthy(a.value)) ==> r == fallback
    ensures Truthy(fallback) ==> Truthy(r)
    ensures r == fallback || (a.Some? && r == a.value)
  {
    if a.Some? && Truthy(a.value) then a.value else fallback
  }
}
