/**
 * JSON values as `JSON.parse` produces them, and the part of JavaScript's
 * property access that the page and the tools rely on: reading a property of
 * `undefined` or `null` throws a TypeError, reading a missing property gives
 * `undefined`.
 */
module JsonValue {
  import opened Wrappers

  datatype Json =
    | JNull
    | JBool(b: bool)
    | JNum(n: real)
    | JStr(s: string)
    | JArr(items: seq<Json>)
    | JObj(fields: map<string, Json>)

  /** `JSON.parse`: `None` where it throws. */
  type Parser = string -> Option<Json>

  /** A JavaScript value reached by property access: `undefined` or a JSON value. */
  datatype Js = Undefined | Val(json: Json)

  /** The TypeError raised by reading a property of `undefined` or `null`. */
  datatype TypeError = TypeError

  /** True when the value cannot be dereferenced. */
  predicate Nullish(v: Js) {
    v == Undefined || v == Val(JNull)
  }

  /** `v.key` for a key that no primitive, array or string carries as a property. */
  function Field(v: Js, key: string): (r: Result<Js, TypeError>)
    ensures r.Err? <==> Nullish(v)
    ensures v.Val? && v.json.JObj? && key in v.json.fields ==> r == Ok(Val(v.json.fields[key]))
    ensures v.Val? && v.json.JObj? && key !in v.json.fields ==> r == Ok(Undefined)
  {
    match v
    case Undefined => Err(TypeError)
    case Val(JNull) => Err(TypeError)
    case Val(JObj(m)) => if key in m then Ok(Val(m[key])) else Ok(Undefined)
    case Val(_) => Ok(Undefined)
  }

  /** The decimal digits of `i`, which is also the key a JavaScript object uses for index `i`. */
  function Decimal(i: nat): (k: string)
    ensures |k| > 0
    decreases i
  {
    if i < 10 then ["0123456789"[i]] else Decimal(i / 10) + ["0123456789"[i % 10]]
  }

  /** `v[i]`: an array element, a one-character string, or an object's decimal key. */
  function Element(v: Js, i: nat): (r: Result<Js, TypeError>)
    ensures r.Err? <==> Nullish(v)
    ensures v.Val? && v.json.JArr? && i < |v.json.items| ==> r == Ok(Val(v.json.items[i]))
    ensures v.Val? && v.json.JArr? && i >= |v.json.items| ==> r == Ok(Undefined)
  {
    match v
    case Undefined => Err(TypeError)
    case Val(JNull) => Err(TypeError)
    case Val(JArr(items)) => if i < |items| then Ok(Val(items[i])) else Ok(Undefined)
    case Val(JStr(s)) => if i < |s| then Ok(Val(JStr([s[i]]))) else Ok(Undefined)
    case Val(JObj(m)) => if Decimal(i) in m then Ok(Val(m[Decimal(i)])) else Ok(Undefined)
    case Val(_) => Ok(Undefined)
  }

  /**
   * JavaScript truthiness (`!v` is false). JSON never yields NaN. Every array
   * and object is truthy, empty ones included.
   */
  predicate Truthy(v: Js)
    ensures Nullish(v) ==> !Truthy(v)
    ensures v.Val? && (v.json.JArr? || v.json.JObj?) ==> Truthy(v)
    ensures v.Val? && v.json.JStr? ==> (Truthy(v) <==> v.json.s != "")
  {
    match v
    case Undefined => false
    case Val(JNull) => false
    case Val(JBool(b)) => b
    case Val(JNum(n)) => n != 0.0
    case Val(JStr(s)) => s != ""
    case Val(_) => true
  }

  /** The string a JavaScript value holds, when it is a string. */
  function AsString(v: Js): (r: Option<string>)
    ensures r.Some? <==> v.Val? && v.json.JStr?
  {
    if v.Val? && v.json.JStr? then Some(v.json.s) else None
  }
}
