# ProcessorMap: key-based processor selection

This project models `ProcessorMap` from json-schema-core. It is a builder that
collects key-to-processor bindings and an optional default processor. It then
freezes them into an immutable processor, the `Mapper`. For each input, the
`Mapper` derives a key with the function `f()` and runs the processor bound to
that key. If no processor is bound to the key, it runs the default processor.
If there is no default either, it throws a `ProcessingException` with the
message NO_SUITABLE_PROCESSOR, and that exception carries the key.

Files:

- `outcomes.dfy` (module `Outcomes`) defines `Option`, which stands for a Java
  reference that may be null. It also defines `Result`, which stands for a call
  that either returns a value or throws.
- `registrations.dfy` (module `Registrations`) describes the builder's
  configuration as the history of its successful registration calls. It has
  two definitions of how a history routes keys:
  - `TableOf` and `DefaultOf` replay the calls in order, the way the builder
    updates its fields.
  - `Routes` is an independent reference definition: the last entry for a key
    wins, and otherwise the last default wins.

  Lemmas prove that the two definitions agree, and that `Routes` is
  deterministic.
- `processor_map.dfy` (module `ProcessorMaps`) holds the rest:
  - the two failure kinds: `BuildError`, for `ProcessorBuildError`, and
    `ProcessingException`;
  - the immutable `Mapper` datatype, with `Select` and `Process`;
  - the Mapper constructor `NewMapper`;
  - the builder class `ProcessorMap`, whose methods update its fields in place;
  - client methods: one for snapshot isolation, and two draft3/draft4
    selection examples, with and without a default.

How the Java code maps to the model:

- Java `null` arguments become `Option` arguments, so the model can state the
  null-argument failures.
- The abstract `f()` becomes a constant `f: Option<IN -> Option<K>>` given to
  the builder's constructor. The outer `Option` is a null function. The inner
  `Option` is a null derived key.
- A processor is an opaque value `P`. Running one is the function `run` that a
  caller passes to `Mapper.Process`. The Mapper returns the result of `run`
  unchanged, whether it is a value or a `ProcessingException`.
- A null derived key is not in any table. So it finds no binding and goes to
  the default processor, or to the NoSuitableProcessor error. This follows the
  code: the immutable map's `get(null)` answers null.

## Model

| member | source | states |
|---|---|---|
| `ProcessorMaps.ProcessorMap.constructor` | src/main/java/com/github/fge/jsonschema/processing/ProcessorMap.java:66-74 | a new builder has an empty table, no default processor and no registrations |
| `ProcessorMaps.ProcessorMap.AddEntry` | src/main/java/com/github/fge/jsonschema/processing/ProcessorMap.java:84-95 | a null key fails with NullKey, and this check comes first; a null processor fails with NullProcessor; on either failure the builder is unchanged; otherwise the key is bound to the processor, overwriting any earlier binding, every other key and the default are unchanged, and the same builder is returned |
| `ProcessorMaps.ProcessorMap.SetDefaultProcessor` | src/main/java/com/github/fge/jsonschema/processing/ProcessorMap.java:104-112 | a null processor fails with NullProcessor and leaves the builder unchanged; otherwise the default is replaced, the table is untouched, and the same builder is returned |
| `ProcessorMaps.ProcessorMap.GetProcessor` | src/main/java/com/github/fge/jsonschema/processing/ProcessorMap.java:125-127 | fails with NullFunction exactly when f() is null; otherwise the Mapper holds the builder's current table, function and default, and routes every input as the reference routing of the registrations made so far prescribes |
| `ProcessorMaps.NewMapper` | src/main/java/com/github/fge/jsonschema/processing/ProcessorMap.java:144-153 | the Mapper constructor refuses a null function with NullFunction, and otherwise keeps the given table, function and default |
| `ProcessorMaps.Mapper.Process` | src/main/java/com/github/fge/jsonschema/processing/ProcessorMap.java:155-170 | a bound derived key runs its processor, and the default is never consulted for it; an unbound or null key runs the default if there is one; in both cases the processor's outcome is returned unchanged; with neither, the result is NoSuitableProcessor carrying the derived key |
| `ProcessorMaps.EntryReroutesOnlyItsKey` | src/main/java/com/github/fge/jsonschema/processing/ProcessorMap.java:93 | adding a binding for k sends the inputs whose key is k to the new processor, whatever was bound before, and routes every other input exactly as before |
| `ProcessorMaps.DefaultReroutesOnlyUnbound` | src/main/java/com/github/fge/jsonschema/processing/ProcessorMap.java:159-163 | changing the default changes the routing only of inputs whose key is unbound; a bound key never falls through to the default |
| `ProcessorMaps.UnroutableRunsNothing` | src/main/java/com/github/fge/jsonschema/processing/ProcessorMap.java:165-167 | when nothing is selected, the outcome does not depend on what any processor would do: no processor runs, and the result is NoSuitableProcessor with the derived key |
| `ProcessorMaps.SnapshotRoutes` | src/main/java/com/github/fge/jsonschema/processing/ProcessorMap.java:150-152 | a Mapper over the table and default left by a history of registrations routes each input as the reference routing of that history says |
| `ProcessorMaps.RebuildAfterRegistering` | src/main/java/com/github/fge/jsonschema/processing/ProcessorMap.java:117-119 | a Mapper taken before further addEntry and setDefaultProcessor calls still routes by the registrations made up to the moment it was taken; the history is extended by exactly the calls that succeeded, both Mappers keep the builder's function, and a Mapper taken afterwards routes by the whole history, sending every input whose derived key is the new key to the new processor |
| `ProcessorMaps.DraftSelection` | src/main/java/com/github/fge/jsonschema/processing/ProcessorMap.java:37-49 | with draft4 bound to A, draft3 bound to B and default C: draft4 gives A, draft3 gives B and unknown gives C |
| `ProcessorMaps.DraftSelectionWithoutDefault` | src/main/java/com/github/fge/jsonschema/processing/ProcessorMap.java:48-49 | rebuilt without a default, draft4 still gives A and unknown fails with NoSuitableProcessor carrying "unknown" |
| `Registrations.LastEntryWins` | src/main/java/com/github/fge/jsonschema/processing/ProcessorMap.java:93 | after any sequence of registrations, a key is bound to the processor of its last addEntry, whatever came before or after |
| `Registrations.UnregisteredUnbound` | src/main/java/com/github/fge/jsonschema/processing/ProcessorMap.java:69 | a key never passed to addEntry is not bound, however many other calls were made |
| `Registrations.LastDefaultWins` | src/main/java/com/github/fge/jsonschema/processing/ProcessorMap.java:110 | the default slot holds the processor of the last setDefaultProcessor, and addEntry calls do not affect it |
| `Registrations.NoDefaultEmpty` | src/main/java/com/github/fge/jsonschema/processing/ProcessorMap.java:74 | without a setDefaultProcessor call, the default stays null |
| `Registrations.ReplayRoutes` | src/main/java/com/github/fge/jsonschema/processing/ProcessorMap.java:84-112 | the table and default that the builder's calls leave agree, for every derived key, with the reference routing: last entry for the key, else last default, else none |
| `Registrations.RoutesUnique` | src/main/java/com/github/fge/jsonschema/processing/ProcessorMap.java:159-169 | routing is deterministic: a history sends any derived key to at most one processor, or to none |

## Left out

- What a processor does: a processor is an opaque value, and running it is the
  caller-supplied function `run`, whose outcome is passed through verbatim.
- `ProcessingReport` is a type parameter. The Mapper passes the report on to the
  selected processor and writes nothing to it. Changes a processor makes to the
  report are part of that processor's behaviour and are not modelled.
- `ProcessingMessage` contents, message rendering, and the message constants of
  `ProcessingErrors`: each failure is a constructor (NullKey, NullProcessor,
  NullFunction, NoSuitableProcessor) plus the derived key.
  How the message stores a null key is not modelled.
- The `MessageProvider` bounds on the input and output types: they matter only
  for message rendering.
- `f()` becomes a constant fixed when the builder is created. A subclass whose
  `f()` returns a different function on each call is not modelled.
- Copying and aliasing: the Guava `ImmutableMap.copyOf` copy, and the mutable
  `HashMap` field. In the model, tables are Dafny `map` values, so a Mapper
  cannot share state with its builder. The model therefore cannot show what
  would go wrong without the copy.
- Thread safety (`@NotThreadSafe` on the builder, and concurrent use of the
  Mapper): concurrency is outside the model. The Mapper is an immutable value,
  and `Process` is a function.
- Unchecked exceptions thrown by `f.apply` or by the selected processor
  (ProcessorMap.java:159, 169) pass through `process` in Java. In the model
  `f` is a total function and `run` returns only a value or a
  `ProcessingException`, so that path cannot be represented.
- Subclassing `ProcessorMap` to supply `f()`: replaced by the constructor
  argument.
