/**
 * The slice of JavaScript value semantics that the page's logic relies on:
 * the values a JSON document can produce (plus `undefined`), truthiness,
 * the `||` operator and property access.
 */
module Js {
  import opened Wrappers

  /** A JavaScript value. Numbers are modelled as integers. */
  datatype Value =
    | Undefined
    | Null
    | Bool(b: bool)
    | Number(n: int)
    | Str(s: string)
    | Array(items: seq<Value>)
    | Object(fields: map<string, Value>)

  /** The exceptions the modelled code can raise. */
  datatype Exception =
    | TypeError              // e.g. reading a property of `undefined`, or fetch rejecting
    | SyntaxError            // JSON.parse / response.json() on text that is not JSON
    | Error(message: string) // `new Error(message)`

  /** ECMAScript ToBoolean: the falsy values are exactly these five; `[]` and `{}` are truthy. */
  predicate Truthy(v: Value)
    ensures !Truthy(v) <==> v in {Undefined, Null, Bool(false), Number(0), Str("")}
  {
    match v
    case Undefined => false
    case Null => false
    case Bool(b) => b
    case Number(n) => n != 0
    case Str(s) => s != ""
    case Array(_) => true
    case Object(_) => true
  }

  /** `a || b`: the left operand when it is truthy, otherwise the right one. */
  function Or(a: Value, b: Value): (r: Value)
    ensures Truthy(a) ==> r == a
    ensures !Truthy(a) ==> r == b
    ensures Truthy(r) <==> Truthy(a) || Truthy(b)
  {
    if Truthy(a) then a else b
  }

  /**
   * `v.name` for a data property: `undefined` and `null` throw a TypeError,
   * an object yields its own field (or `undefined`), strings and arrays
   * answer `length`, and every other property reads as `undefined`.
   */
  function Member(v: Value, name: string): (r: Result<Value, Exception>)
    ensures r.Err? <==> v == Undefined || v == Null
    ensures r.Err? ==> r.error == TypeError
    ensures v.Object? ==> r == Ok(if name in v.fields then v.fields[name] else Undefined)
  {
    match v
    case Undefined => Err(TypeError)
    case Null => Err(TypeError)
    case Object(f) => Ok(if name in f then f[name] else Undefined)
    case Str(s) => Ok(if name == "length" then Number(|s|) else Undefined)
    case Array(items) => Ok(if name == "length" then Number(|items|) else Undefined)
    case _ => Ok(Undefined)
  }
}
