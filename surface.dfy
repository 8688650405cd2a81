/**
 * The module's default export: a frozen record of the five curried factories,
 * under the same names as the engine's entry points. Being a Dafny value, the
 * record cannot be extended or overwritten.
 */
module Surface {
  import opened JsValues
  import opened Requestors
  import opened Parseq
  import opened Adapters

  datatype Option<T> = None | Some(value: T)

  /** The exported record `{fallback, parallel, parallel_object, race, sequence}`. */
  datatype Exported<!C, !V, !H> = Exported(
    fallback: Js<C -> V -> H> -> (Js<C -> V -> H> -> Result<C -> V -> H>),
    parallel: Js<C -> V -> H> -> ((Js<C -> V -> H>, Js<C -> V -> H>) -> Result<C -> V -> H>),
    parallel_object: Js<C -> V -> H> -> ((Js<C -> V -> H>, Js<C -> V -> H>) -> Result<C -> V -> H>),
    race: Js<C -> V -> H> -> (Js<C -> V -> H> -> Result<C -> V -> H>),
    sequence: Js<C -> V -> H> -> (Js<C -> V -> H> -> Result<C -> V -> H>))

  /** The record built once from the five factories. */
  function Exports<C(!new), V(!new), H(!new)>(engine: Engine<C, V, H>): Exported<C, V, H>
  {
    Exported(
      options => FallbackAdapter(engine, options),
      options => ParallelAdapter(engine, options),
      options => ParallelObjectAdapter(engine, options),
      options => RaceAdapter(engine, options),
      options => SequenceAdapter(engine, options))
  }

  /** The entry point whose exported name is `name`, if there is one. */
  function EntryNamed(name: string): (e: Option<Entry>)
    ensures e.Some? ==> EntryName(e.value) == name
    ensures forall entry :: EntryName(entry) == name ==> e == Some(entry)
  {
    if name == "parallel" then Some(Parallel)
    else if name == "parallel_object" then Some(ParallelObject)
    else if name == "race" then Some(Race)
    else if name == "fallback" then Some(Fallback)
    else if name == "sequence" then Some(Sequence)
    else None
  }

  /** The collections an entry point takes: two for the parallel pair, one otherwise (a further argument is ignored). */
  function Collections<F>(entry: Entry, first: F, second: F): seq<F>
  {
    if entry == Parallel || entry == ParallelObject then [first, second] else [first]
  }

  /**
   * `surface[name](options)(first, second)`: None for any other name. Inherited
   * properties of the record are not modelled.
   */
  function Configure<C(!new), V(!new), H(!new)>(
    surface: Exported<C, V, H>, name: string, options: Js<C -> V -> H>, first: Js<C -> V -> H>, second: Js<C -> V -> H>)
    : Option<Result<C -> V -> H>>
  {
    match EntryNamed(name)
    case None => None
    case Some(Parallel) => Some(surface.parallel(options)(first, second))
    case Some(ParallelObject) => Some(surface.parallel_object(options)(first, second))
    case Some(Race) => Some(surface.race(options)(first))
    case Some(Fallback) => Some(surface.fallback(options)(first))
    case Some(Sequence) => Some(surface.sequence(options)(first))
  }

  /**
   * The record has exactly the five members, and each rejects a malformed
   * options record with the configuration error.
   */
  lemma ExportsRejectInvalidOptions<C(!new), V(!new), H(!new)>(
    engine: Engine<C, V, H>, name: string, options: Js<C -> V -> H>, first: Js<C -> V -> H>, second: Js<C -> V -> H>)
    ensures Configure(Exports(engine), name, options, first, second).Some?
      <==> name in {"fallback", "parallel", "parallel_object", "race", "sequence"}
    ensures !IsObject(WithDefault(options)) && EntryNamed(name).Some? ==>
      Configure(Exports(engine), name, options, first, second) == Some(Err(InvalidOptionsObject))
  {
  }

  /**
   * Given a plain options record, every exported factory forwards to the engine
   * entry point of its own name with the documented arguments, and its requestor
   * returns what the engine's requestor returns.
   */
  lemma ExportsForwardByName<C(!new), V(!new), H(!new)>(
    engine: Engine<C, V, H>, name: string, options: Js<C -> V -> H>,
    first: Js<C -> V -> H>, second: Js<C -> V -> H>, callback: C, initialValue: V)
    requires IsObject(WithDefault(options)) && EntryNamed(name).Some?
    ensures
      var entry := EntryNamed(name).value;
      var r := Configure(Exports(engine), name, options, first, second);
      && r.Some? && r.value.Ok?
      && r.value.value(callback)(initialValue)
         == engine(Forwarded(entry, Collections(entry, first, second), WithDefault(options)))(callback, initialValue)
  {
  }

  /**
   * A configuration error is decided before the engine is involved: it is the
   * same error for every engine and every requestor collection.
   */
  lemma ConfigurationErrorIgnoresEngine<C(!new), V(!new), H(!new)>(
    engine: Engine<C, V, H>, other: Engine<C, V, H>, name: string, options: Js<C -> V -> H>,
    first: Js<C -> V -> H>, second: Js<C -> V -> H>, first': Js<C -> V -> H>, second': Js<C -> V -> H>)
    requires !IsObject(WithDefault(options))
    ensures Configure(Exports(engine), name, options, first, second)
         == Configure(Exports(other), name, options, first', second')
  {
    ExportsRejectInvalidOptions(engine, name, options, first, second);
    ExportsRejectInvalidOptions(other, name, options, first', second');
  }

  /**
   * A requestor made by an exported factory can itself sit in a collection: once
   * uncurried, calling it returns exactly what the engine's requestor returns, so
   * the inner cancellation handle reaches the outer engine unchanged.
   */
  lemma NestedRequestorKeepsHandle<C(!new), V(!new), H(!new)>(
    engine: Engine<C, V, H>, name: string, options: Js<C -> V -> H>,
    first: Js<C -> V -> H>, second: Js<C -> V -> H>, callback: C, initialValue: V)
    requires IsObject(WithDefault(options)) && EntryNamed(name).Some?
    ensures
      var entry := EntryNamed(name).value;
      var inner := Configure(Exports(engine), name, options, first, second).value.value;
      var outer := UncurryRequestors(Array([Func(inner)]));
      outer.items[0].f.call(callback, initialValue)
        == Returned(engine(Forwarded(entry, Collections(entry, first, second), WithDefault(options)))(callback, initialValue))
  {
  }
}
