/**
 * Requestors in their two shapes and the converter between them.
 *
 * A client writes a curried requestor `callback => initial_value => handle`; the
 * engine calls requestors as `(callback, initial_value) => handle`. C is the
 * callback type, V the type of initial values and H what a requestor returns
 * (a cancellation handle or undefined); none of them is inspected here.
 */
module Requestors {
  import opened JsValues

  /** How a JavaScript call ends: the callee returns, or it was not a function and a TypeError is thrown. */
  datatype Completion<H> = Returned(handle: H) | NotCallable

  /**
   * The functions that reach the engine: a client function passed through as it was,
   * or a two-argument requestor made by the converter.
   */
  datatype Fn<!C, !V, H> =
    | Curried(run: C -> V -> H)
    | Uncurried(call: (C, V) -> Completion<H>)

  /** The JavaScript expression `requestor(callback)(initial_value)`. */
  function Apply<C(!new), V(!new), H>(requestor: Js<C -> V -> H>, callback: C, initialValue: V): Completion<H> {
    match requestor
    case Func(run) => Returned(run(callback)(initialValue))
    case _ => NotCallable
  }

  /** `u` is an uncurried requestor that does, for every callback and initial value, what `r(callback)(initial_value)` does. */
  ghost predicate BehavesAs<C(!new), V(!new), H>(u: Js<Fn<C, V, H>>, r: Js<C -> V -> H>) {
    && u.Func?
    && u.f.Uncurried?
    && forall callback, initialValue :: u.f.call(callback, initialValue) == Apply(r, callback, initialValue)
  }

  /** `uncurried_requestor`: reshape `callback => initial_value => h` into `(callback, initial_value) => h`. */
  function UncurriedRequestor<C(!new), V(!new), H>(requestor: Js<C -> V -> H>): (C, V) -> Completion<H> {
    (callback: C, initialValue: V) => Apply(requestor, callback, initialValue)
  }

  /** `callback => initial_value => g(callback, initial_value)`: the curried form of a two-argument requestor. */
  function Curry<C, V, H>(g: (C, V) -> H): C -> V -> H {
    (callback: C) => (initialValue: V) => g(callback, initialValue)
  }

  /**
   * The two forms are isomorphic: uncurrying the curried form of any two-argument
   * requestor gives back its results, and the uncurried form of any curried
   * requestor, curried again, returns what the original returns.
   */
  lemma CurryingRoundTrip<C(!new), V(!new), H>(g: (C, V) -> H, r: C -> V -> H, callback: C, initialValue: V)
    ensures UncurriedRequestor(Func(Curry(g)))(callback, initialValue) == Returned(g(callback, initialValue))
    ensures Curry(UncurriedRequestor(Func(r)))(callback)(initialValue) == Returned(r(callback)(initialValue))
  {
  }

  /** The uncurried form of one collection element, as a JavaScript function value. */
  function UncurriedValue<C(!new), V(!new), H>(requestor: Js<C -> V -> H>): (u: Js<Fn<C, V, H>>)
    ensures BehavesAs(u, requestor)
  {
    Func(Uncurried(UncurriedRequestor(requestor)))
  }

  /** `requestor_list.map(uncurried_requestor)`: same length, element i is the uncurried element i. */
  function MapRequestors<C(!new), V(!new), H>(items: seq<Js<C -> V -> H>>): (r: seq<Js<Fn<C, V, H>>>)
    ensures |r| == |items|
    ensures forall i :: 0 <= i < |items| ==> BehavesAs(r[i], items[i])
  {
    if items == [] then []
    else MapRequestors(items[..|items| - 1]) + [UncurriedValue(items[|items| - 1])]
  }

  /**
   * `Object.fromEntries(Object.entries(o).map(([key, r]) => [key, uncurried_requestor(r)]))`:
   * the same keys, each mapped to the uncurried form of its own value.
   */
  function MapFields<C(!new), V(!new), H>(fields: map<string, Js<C -> V -> H>>): (r: map<string, Js<Fn<C, V, H>>>)
    ensures r.Keys == fields.Keys
    ensures forall key :: key in fields ==> BehavesAs(r[key], fields[key])
  {
    map key | key in fields :: UncurriedValue(fields[key])
  }

  /** `out` is `x` itself, seen on the engine side; only values that are neither arrays nor plain objects qualify. */
  ghost predicate SameValue<C(!new), V(!new), H>(out: Js<Fn<C, V, H>>, x: Js<C -> V -> H>) {
    match x
    case Undefined => out.Undefined?
    case Null => out.Null?
    case Bool(b) => out == Bool(b)
    case Num(n) => out == Num(n)
    case Str(s) => out == Str(s)
    case Func(run) => out == Func(Curried(run))
    case Array(_) => false
    case Object(_) => false
  }

  /** `uncurry_requestors`: arrays and plain objects are uncurried element by element; anything else is returned as it is. */
  function UncurryRequestors<C(!new), V(!new), H>(x: Js<C -> V -> H>): (r: Js<Fn<C, V, H>>)
    ensures IsArray(x) ==>
      && r.Array?
      && |r.items| == |x.items|
      && forall i :: 0 <= i < |x.items| ==> BehavesAs(r.items[i], x.items[i])
    ensures IsObject(x) ==>
      && r.Object?
      && r.fields.Keys == x.fields.Keys
      && forall key :: key in x.fields ==> BehavesAs(r.fields[key], x.fields[key])
    ensures !IsArray(x) && !IsObject(x) ==> SameValue(r, x)
  {
    if IsArray(x) then Array(MapRequestors(x.items))
    else if IsObject(x) then Object(MapFields(x.fields))
    else
      match x
      case Undefined => Undefined
      case Null => Null
      case Bool(b) => Bool(b)
      case Num(n) => Num(n)
      case Str(s) => Str(s)
      case Func(run) => Func(Curried(run))
  }
}
