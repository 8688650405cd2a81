/**
 * The combinator engine as the adapter sees it: five entry points, each taking
 * positional arguments and returning an uncurried requestor. What an entry point
 * does with its arguments (scheduling, time limits, throttling, cancellation) is
 * the engine's own and is not modelled; a call is recorded as the entry's name
 * and its argument list, and the engine is any function from such records to
 * requestors `(callback, initial_value) => handle`.
 */
module Parseq {
  import opened JsValues
  import opened Requestors

  /** The five entry points `parseq.parallel`, `parseq.parallel_object`, `parseq.race`, `parseq.fallback`, `parseq.sequence`. */
  datatype Entry = Parallel | ParallelObject | Race | Fallback | Sequence

  /** The property name under which the engine exports an entry point. */
  function EntryName(entry: Entry): string {
    match entry
    case Parallel => "parallel"
    case ParallelObject => "parallel_object"
    case Race => "race"
    case Fallback => "fallback"
    case Sequence => "sequence"
  }

  /** One positional argument: an uncurried requestor collection, or an option value passed on as given. */
  datatype Arg<!C, !V, H> =
    | Collection(requestors: Js<Fn<C, V, H>>)
    | Setting(value: Js<C -> V -> H>)

  /** A call `parseq.<entry>(args...)`. */
  datatype EngineCall<!C, !V, H> = EngineCall(entry: Entry, args: seq<Arg<C, V, H>>)

  /** The engine: what each call returns, a requestor in the engine's two-argument form. */
  type Engine<!C, !V, !H> = EngineCall<C, V, H> -> ((C, V) -> H)
}
