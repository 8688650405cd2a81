/**
 * The five curried combinator factories. Each is called first with an options
 * record, then with its requestor collection(s), and yields a curried requestor
 * `callback => initial_value => handle` that makes one call into the engine.
 *
 * The options record is checked when the collections are supplied, not when it
 * is first given; a bad record is reported as a configuration error in place of
 * the string the JavaScript code throws.
 */
module Adapters {
  import opened JsValues
  import opened Requestors
  import opened Parseq

  /** The configuration error thrown as "Invalid options object". */
  datatype ConfigError = InvalidOptionsObject

  datatype Result<T> = Ok(value: T) | Err(error: ConfigError)

  /**
   * The default parameter `options = {}`: it applies when the argument is missing
   * or undefined, and not to null. The defaulted options pass the `is_object`
   * check exactly when the argument was omitted or a plain object; null, arrays,
   * primitives and functions are rejected.
   */
  function WithDefault<F>(options: Js<F>): (o: Js<F>)
    ensures IsObject(o) <==> options.Undefined? || options.Object?
    ensures options.Null? ==> o.Null?
  {
    if options.Undefined? then Object(map[]) else options
  }

  /** The option fields each entry point receives, in the order it receives them after its collections. */
  function RecognisedFields(entry: Entry): (fields: seq<string>)
    ensures |fields| > 0 && fields[0] == "time_limit"
    ensures "time_option" in fields <==> entry == Parallel || entry == ParallelObject
    ensures "throttle" in fields <==> entry == Parallel || entry == ParallelObject || entry == Race
    ensures forall name :: name in fields ==> name in {"time_limit", "time_option", "throttle"}
    ensures forall i, j :: 0 <= i < j < |fields| ==> fields[i] != fields[j]
  {
    match entry
    case Parallel => ["time_limit", "time_option", "throttle"]
    case ParallelObject => ["time_limit", "time_option", "throttle"]
    case Race => ["time_limit", "throttle"]
    case Fallback => ["time_limit"]
    case Sequence => ["time_limit"]
  }

  /**
   * The engine call an adapter for `entry` must make: the uncurried collections in
   * the order given, then the recognised option fields in the order above.
   */
  function Forwarded<C(!new), V(!new), H(!new)>(entry: Entry, collections: seq<Js<C -> V -> H>>, options: Js<C -> V -> H>): EngineCall<C, V, H>
    requires options.Object?
  {
    var fields := RecognisedFields(entry);
    EngineCall(
      entry,
      seq(|collections|, i requires 0 <= i < |collections| => Collection(UncurryRequestors(collections[i])))
      + seq(|fields|, j requires 0 <= j < |fields| => Setting(Get(options, fields[j]))))
  }

  /** The positional arguments each entry point receives, read off the table above. */
  lemma ForwardedOrder<C(!new), V(!new), H(!new)>(options: Js<C -> V -> H>)
    ensures options.Object? ==> forall required, optional ::
      Forwarded(Parallel, [required, optional], options) == EngineCall(Parallel, [
        Collection(UncurryRequestors(required)), Collection(UncurryRequestors(optional)),
        Setting(Get(options, "time_limit")), Setting(Get(options, "time_option")), Setting(Get(options, "throttle"))])
    ensures options.Object? ==> forall required, optional ::
      Forwarded(ParallelObject, [required, optional], options) == EngineCall(ParallelObject, [
        Collection(UncurryRequestors(required)), Collection(UncurryRequestors(optional)),
        Setting(Get(options, "time_limit")), Setting(Get(options, "time_option")), Setting(Get(options, "throttle"))])
    ensures options.Object? ==> forall list ::
      Forwarded(Race, [list], options) == EngineCall(Race, [
        Collection(UncurryRequestors(list)), Setting(Get(options, "time_limit")), Setting(Get(options, "throttle"))])
    ensures options.Object? ==> forall list ::
      Forwarded(Fallback, [list], options) == EngineCall(Fallback, [
        Collection(UncurryRequestors(list)), Setting(Get(options, "time_limit"))])
    ensures options.Object? ==> forall list ::
      Forwarded(Sequence, [list], options) == EngineCall(Sequence, [
        Collection(UncurryRequestors(list)), Setting(Get(options, "time_limit"))])
  {
  }

  /** `parallel(options)(required_array, optional_array)`. */
  function ParallelAdapter<C(!new), V(!new), H(!new)>(engine: Engine<C, V, H>, options: Js<C -> V -> H>)
    : (configure: (Js<C -> V -> H>, Js<C -> V -> H>) -> Result<C -> V -> H>)
    ensures forall required, optional :: !IsObject(WithDefault(options)) ==>
      configure(required, optional) == Err(InvalidOptionsObject)
    ensures forall required, optional, callback, initialValue :: IsObject(WithDefault(options)) ==>
      && configure(required, optional).Ok?
      && configure(required, optional).value(callback)(initialValue)
         == engine(Forwarded(Parallel, [required, optional], WithDefault(options)))(callback, initialValue)
  {
    var options := WithDefault(options);
    ForwardedOrder(options);
    (required: Js<C -> V -> H>, optional: Js<C -> V -> H>) =>
      if !IsObject(options) then Err(InvalidOptionsObject)
      else
        var timeLimit := Get(options, "time_limit");
        var timeOption := Get(options, "time_option");
        var throttle := Get(options, "throttle");
        Ok((callback: C) => (initialValue: V) =>
          engine(EngineCall(Parallel, [
            Collection(UncurryRequestors(required)),
            Collection(UncurryRequestors(optional)),
            Setting(timeLimit),
            Setting(timeOption),
            Setting(throttle)
          ]))(callback, initialValue))
  }

  /** `parallel_object(options)(required_object, optional_object)`. */
  function ParallelObjectAdapter<C(!new), V(!new), H(!new)>(engine: Engine<C, V, H>, options: Js<C -> V -> H>)
    : (configure: (Js<C -> V -> H>, Js<C -> V -> H>) -> Result<C -> V -> H>)
    ensures forall required, optional :: !IsObject(WithDefault(options)) ==>
      configure(required, optional) == Err(InvalidOptionsObject)
    ensures forall required, optional, callback, initialValue :: IsObject(WithDefault(options)) ==>
      && configure(required, optional).Ok?
      && configure(required, optional).value(callback)(initialValue)
         == engine(Forwarded(ParallelObject, [required, optional], WithDefault(options)))(callback, initialValue)
  {
    var options := WithDefault(options);
    ForwardedOrder(options);
    (required: Js<C -> V -> H>, optional: Js<C -> V -> H>) =>
      if !IsObject(options) then Err(InvalidOptionsObject)
      else
        var timeLimit := Get(options, "time_limit");
        var timeOption := Get(options, "time_option");
        var throttle := Get(options, "throttle");
        Ok((callback: C) => (initialValue: V) =>
          engine(EngineCall(ParallelObject, [
            Collection(UncurryRequestors(required)),
            Collection(UncurryRequestors(optional)),
            Setting(timeLimit),
            Setting(timeOption),
            Setting(throttle)
          ]))(callback, initialValue))
  }

  /** `race(options)(requestor_array)`. */
  function RaceAdapter<C(!new), V(!new), H(!new)>(engine: Engine<C, V, H>, options: Js<C -> V -> H>)
    : (configure: Js<C -> V -> H> -> Result<C -> V -> H>)
    ensures forall list :: !IsObject(WithDefault(options)) ==>
      configure(list) == Err(InvalidOptionsObject)
    ensures forall list, callback, initialValue :: IsObject(WithDefault(options)) ==>
      && configure(list).Ok?
      && configure(list).value(callback)(initialValue)
         == engine(Forwarded(Race, [list], WithDefault(options)))(callback, initialValue)
  {
    var options := WithDefault(options);
    ForwardedOrder(options);
    (list: Js<C -> V -> H>) =>
      if !IsObject(options) then Err(InvalidOptionsObject)
      else
        var timeLimit := Get(options, "time_limit");
        var throttle := Get(options, "throttle");
        Ok((callback: C) => (initialValue: V) =>
          engine(EngineCall(Race, [
            Collection(UncurryRequestors(list)),
            Setting(timeLimit),
            Setting(throttle)
          ]))(callback, initialValue))
  }

  /** `fallback(options)(requestor_array)`. */
  function FallbackAdapter<C(!new), V(!new), H(!new)>(engine: Engine<C, V, H>, options: Js<C -> V -> H>)
    : (configure: Js<C -> V -> H> -> Result<C -> V -> H>)
    ensures forall list :: !IsObject(WithDefault(options)) ==>
      configure(list) == Err(InvalidOptionsObject)
    ensures forall list, callback, initialValue :: IsObject(WithDefault(options)) ==>
      && configure(list).Ok?
      && configure(list).value(callback)(initialValue)
         == engine(Forwarded(Fallback, [list], WithDefault(options)))(callback, initialValue)
  {
    var options := WithDefault(options);
    ForwardedOrder(options);
    (list: Js<C -> V -> H>) =>
      if !IsObject(options) then Err(InvalidOptionsObject)
      else
        var timeLimit := Get(options, "time_limit");
        Ok((callback: C) => (initialValue: V) =>
          engine(EngineCall(Fallback, [
            Collection(UncurryRequestors(list)),
            Setting(timeLimit)
          ]))(callback, initialValue))
  }

  /** `sequence(options)(requestor_array)`. */
  function SequenceAdapter<C(!new), V(!new), H(!new)>(engine: Engine<C, V, H>, options: Js<C -> V -> H>)
    : (configure: Js<C -> V -> H> -> Result<C -> V -> H>)
    ensures forall list :: !IsObject(WithDefault(options)) ==>
      configure(list) == Err(InvalidOptionsObject)
    ensures forall list, callback, initialValue :: IsObject(WithDefault(options)) ==>
      && configure(list).Ok?
      && configure(list).value(callback)(initialValue)
         == engine(Forwarded(Sequence, [list], WithDefault(options)))(callback, initialValue)
  {
    var options := WithDefault(options);
    ForwardedOrder(options);
    (list: Js<C -> V -> H>) =>
      if !IsObject(options) then Err(InvalidOptionsObject)
      else
        var timeLimit := Get(options, "time_limit");
        Ok((callback: C) => (initialValue: V) =>
          engine(EngineCall(Sequence, [
            Collection(UncurryRequestors(list)),
            Setting(timeLimit)
          ]))(callback, initialValue))
  }

  /**
   * Only recognised fields are forwarded: two plain option records that agree on
   * the fields an entry point recognises produce the same engine call, whatever
   * other fields either of them holds.
   */
  lemma OnlyRecognisedFieldsForwarded<C(!new), V(!new), H(!new)>(
    entry: Entry, collections: seq<Js<C -> V -> H>>, options: Js<C -> V -> H>, other: Js<C -> V -> H>)
    requires options.Object? && other.Object?
    requires forall name :: name in RecognisedFields(entry) ==> Get(options, name) == Get(other, name)
    ensures Forwarded(entry, collections, options) == Forwarded(entry, collections, other)
  {
  }

  /**
   * The caller's own option values reach the engine: a recognised field present
   * in a supplied plain options record is forwarded as given, in its slot after
   * the collections, and a recognised field the record lacks is forwarded as
   * undefined.
   */
  lemma SuppliedFieldsForwarded<C(!new), V(!new), H(!new)>(
    entry: Entry, collections: seq<Js<C -> V -> H>>, options: Js<C -> V -> H>, j: nat)
    requires options.Object? && j < |RecognisedFields(entry)|
    ensures RecognisedFields(entry)[j] in options.fields ==>
      Forwarded(entry, collections, WithDefault(options)).args[|collections| + j]
        == Setting(options.fields[RecognisedFields(entry)[j]])
    ensures RecognisedFields(entry)[j] !in options.fields ==>
      Forwarded(entry, collections, WithDefault(options)).args[|collections| + j] == Setting(Undefined)
  {
  }

  /** An omitted options argument is accepted and every recognised field reaches the engine as undefined. */
  lemma OmittedOptionsForwardUndefined<C(!new), V(!new), H(!new)>(entry: Entry, collections: seq<Js<C -> V -> H>>)
    ensures IsObject(WithDefault<C -> V -> H>(Undefined))
    ensures |Forwarded(entry, collections, WithDefault(Undefined)).args| == |collections| + |RecognisedFields(entry)|
    ensures forall j :: |collections| <= j < |Forwarded(entry, collections, WithDefault(Undefined)).args| ==>
      Forwarded(entry, collections, WithDefault(Undefined)).args[j] == Setting(Undefined)
  {
  }

  /** An omitted optional collection is not uncurried into anything: the engine receives undefined in its place. */
  lemma OmittedOptionalCollection<C(!new), V(!new), H(!new)>(
    entry: Entry, required: Js<C -> V -> H>, options: Js<C -> V -> H>)
    requires entry == Parallel || entry == ParallelObject
    requires options.Object?
    ensures Forwarded(entry, [required, Undefined], options).args[1] == Collection(Undefined)
  {
  }
}
