/**
 * The JavaScript values the adapter layer looks at: the options record and the
 * requestor collections. Only the distinctions the adapter draws are kept
 * (`typeof`, `Array.isArray`, own string-keyed properties); numbers are exact
 * reals and objects are finite maps from property names to values.
 */
module JsValues {

  /** A JavaScript value whose functions are of type F. */
  datatype Js<F> =
    | Undefined
    | Null
    | Bool(b: bool)
    | Num(n: real)
    | Str(s: string)
    | Array(items: seq<Js<F>>)
    | Object(fields: map<string, Js<F>>)
    | Func(f: F)

  /** The `typeof` operator. */
  function TypeOf<F>(a: Js<F>): (t: string)
    ensures t == "object" <==> a.Null? || a.Array? || a.Object?
    ensures t == "function" <==> a.Func?
    ensures t == "undefined" <==> a.Undefined?
  {
    match a
    case Undefined => "undefined"
    case Null => "object"
    case Bool(_) => "boolean"
    case Num(_) => "number"
    case Str(_) => "string"
    case Array(_) => "object"
    case Object(_) => "object"
    case Func(_) => "function"
  }

  /** `Array.isArray`. */
  function IsArray<F>(a: Js<F>): bool
  {
    a.Array?
  }

  /** `is_object`: a value whose `typeof` is "object" that is neither null nor an array. */
  function IsObject<F>(a: Js<F>): (b: bool)
    ensures b <==> a.Object?
  {
    TypeOf(a) == "object" && !a.Null? && !IsArray(a)
  }

  /** Destructuring `const {name} = o` on a plain object: a missing property reads as undefined. */
  function Get<F>(o: Js<F>, name: string): Js<F>
    requires o.Object?
  {
    if name in o.fields then o.fields[name] else Undefined
  }
}
