# curried-parseq, modelled in Dafny

curried-parseq is a thin layer in front of the parseq requestor-combinator
engine. A client writes requestors in curried form,
`callback => initial_value => handle`, and configures the five combinators
`parallel`, `parallel_object`, `race`, `fallback` and `sequence` in two steps:
`combinator(options)(collections...)`. The result is again a curried requestor.
When it runs, the layer reshapes every requestor in the collections into the
engine's two-argument form `(callback, initial_value) => handle`. It then calls
the engine's entry point of the same name with positional arguments: the
collections first, then the recognised option fields. It applies what the
engine returns to `(callback, initial_value)` and returns that result.

The model has four modules for the parts of `index.js`, and `Parseq` for the
engine's call interface:

- `JsValues` (`js_values.dfy`): the JavaScript values the layer inspects, with
  `typeof`, `Array.isArray`, `is_object` and property reads.
- `Requestors` (`requestors.dfy`): `uncurried_requestor` and
  `uncurry_requestors`, with `Array.prototype.map` written out as a recursive
  function.
- `Parseq` (`parseq.dfy`): the engine as the layer sees it. A call is a record
  of the entry point and its argument list. The engine is any function from such
  records to two-argument requestors.
- `Adapters` (`adapters.dfy`): the five factories, the options check, and a
  table of the option fields each entry point takes. Each factory is proved
  against a reference definition, `Forwarded`, built from that table.
- `Surface` (`surface.dfy`): the frozen export record and lookup by name.

Callbacks, initial values and handles are type parameters (`C`, `V`, `H`). The
layer never looks inside them. Every function a client supplies is a curried
requestor `C -> V -> H`. On the engine side, a function is either one of those,
passed through as it was, or an uncurried requestor made by the layer. Calling
an uncurried requestor made from a value that is not a function ends in
`NotCallable`, the TypeError JavaScript throws at that point.

The options record is checked in the second step, when the collections are
supplied (index.js:53-57), not when `combinator(options)` is first called. A
factory applied to options always returns a configuring function, and that
function returns the configuration error.

## Model

| member | source | states |
|---|---|---|
| `JsValues.TypeOf` | index.js:18 | `typeof` gives "object" exactly for null, arrays and plain objects, "function" exactly for functions, "undefined" exactly for undefined |
| `JsValues.IsObject` | index.js:17-19 | `is_object(a)` holds exactly when `a` is a plain object, so null, arrays (recognised by the helper `IsArray`, `Array.isArray` at index.js:18), undefined, primitives and functions give false |
| `Requestors.CurryingRoundTrip` | index.js:22-26 | `uncurried_requestor` (the helper `UncurriedRequestor`) and currying are inverse: uncurrying the curried form of any two-argument requestor returns exactly its result, and the uncurried form of any curried requestor, curried again, returns exactly `requestor(callback)(initial_value)`, so the handle passes through unchanged |
| `Requestors.UncurriedValue` | index.js:22-40 | the uncurried form of one element (index.js:40: `uncurried_requestor` at index.js:22-26, the helper `UncurriedRequestor`) is a two-argument function value that, for every callback and initial value, returns what the element called curried returns |
| `Requestors.MapRequestors` | index.js:31 | mapping `uncurried_requestor` over an array gives an array of the same length whose element i behaves as element i of the input |
| `Requestors.MapFields` | index.js:35-44 | rebuilding an object from its mapped entries keeps exactly the same keys, and each key's value behaves as that key's original value |
| `Requestors.UncurryRequestors` | index.js:29-48 | an array (the helper `IsArray`, `Array.isArray` at index.js:30) gives an array of the same length and order of uncurried requestors; a plain object gives an object with the same key set; anything else is returned as it is |
| `Adapters.WithDefault` | index.js:52-57 | the default parameter `options = {}` (likewise at index.js:82, 112, 139, 162) yields options that pass the options check at index.js:55 exactly when the argument was omitted (undefined) or a plain object; null is not defaulted (it stays null) and, like arrays, primitives and functions, is rejected |
| `Adapters.RecognisedFields` | index.js:59-63 | each factory reads `time_limit` first and no field twice; `time_option` only for the parallel pair (index.js:89-93), `throttle` for the parallel pair and race (index.js:119-122), and fallback and sequence read `time_limit` alone (index.js:146, 169) |
| `Adapters.ForwardedOrder` | index.js:67-179 | parallel and parallel_object pass (required, optional, time_limit, time_option, throttle); race passes (list, time_limit, throttle); fallback and sequence pass (list, time_limit) |
| `Adapters.OnlyRecognisedFieldsForwarded` | index.js:59-63 | two plain options records that agree on an entry point's recognised fields, as read by the destructuring helper `Get` (likewise at index.js:89-93, 119-122, 146, 169), give the same engine call, so no other field is ever forwarded |
| `Adapters.SuppliedFieldsForwarded` | index.js:59-76 | a recognised field present in a supplied plain options record (kept as given by the default helper `WithDefault`, read by the destructuring helper `Get`) reaches the engine with exactly the caller's value in its slot after the collections, and a recognised field the record lacks reaches it as undefined (likewise at index.js:89-106, 119-133, 146-156, 169-179) |
| `Adapters.OmittedOptionsForwardUndefined` | index.js:52-63 | omitted options are accepted, and every recognised field, read by the destructuring helper `Get` from the empty record, reaches the engine as undefined after the collections |
| `Adapters.OmittedOptionalCollection` | index.js:68-69 | for the parallel pair, an omitted optional collection reaches the engine as undefined |
| `Adapters.ParallelAdapter` | index.js:52-80 | `parallel(options)(required, optional)` is the configuration error exactly when the defaulted options are not a plain object; otherwise its requestor applies `parseq.parallel`'s documented call to exactly `(callback, initial_value)` and returns the result unchanged |
| `Adapters.ParallelObjectAdapter` | index.js:82-110 | the same for `parallel_object` and `parseq.parallel_object` |
| `Adapters.RaceAdapter` | index.js:112-137 | the same for `race(options)(list)` and `parseq.race` |
| `Adapters.FallbackAdapter` | index.js:139-160 | the same for `fallback(options)(list)` and `parseq.fallback` |
| `Adapters.SequenceAdapter` | index.js:162-183 | the same for `sequence(options)(list)` and `parseq.sequence` |
| `Surface.EntryNamed` | index.js:185-191 | an exported name resolves to the engine entry point of the same name, and each entry point's name resolves to it |
| `Surface.ExportsRejectInvalidOptions` | index.js:185-191 | the export has exactly the five members, and each returns the configuration error for options that are not a plain object |
| `Surface.ExportsForwardByName` | index.js:185-191 | given options that pass the check, every factory of the exported record (the helper `Exports`) forwards to the engine entry point of its own name with the documented arguments: both collections for the parallel pair, the first alone for race, fallback and sequence (the helper `Collections`, index.js:53, 83, 113, 140, 163) |
| `Surface.ConfigurationErrorIgnoresEngine` | index.js:55-57 | a configuration error is the same for every engine and every collection, so it is decided before any engine call |
| `Surface.NestedRequestorKeepsHandle` | index.js:65-77 | a requestor from an exported factory placed in another collection returns, once uncurried by `uncurried_requestor` (the helper `UncurriedRequestor`), exactly the engine's handle |

## Left out

- The engine `parseq.js` is not part of this model. Its scheduling, time limits, throttling, cancellation and callback protocol are asynchronous and timer-driven. It is a parameter here, and its checks on arguments (and any exception they throw) belong to it.
- The guarantee that a callback fires exactly once belongs to the engine and the requestors, not to this layer.
- `Object.freeze` has nothing to model: the export is an immutable Dafny value.
- JavaScript object details are abstracted: symbol keys, inherited and non-enumerable properties, property order, and class instances such as `Date` counting as objects. A plain object is a finite map from strings to values. Looking up a name on the exported record that is not one of its five fields (such as the inherited `toString` or `constructor`) is not modelled.
- The value thrown for bad options, the bare string "Invalid options object", is the error `InvalidOptionsObject`.
- Numbers are exact reals. BigInt and Symbol values are not modelled.
- Every client function is a curried requestor in the model. A two-argument function placed in a collection cannot be expressed, so JavaScript's behaviour for it (calling it with one argument, then calling its result) is not modelled.
- Values are immutable in the model. In JavaScript, the collections are uncurried each time the requestor runs, so a client that mutates an array after configuring would be seen. That aliasing is not modelled.
