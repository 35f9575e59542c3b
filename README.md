# simple-state-js, modelled in Dafny

simple-state-js is a small reactive data store for JavaScript. A *store* holds
one piece of data and four registries of named handlers:
- **actions**, which are called by name;
- **loaders**, whose result becomes the data and which a cache can suppress;
- **transformers**, which receive the data first and leave it unchanged;
- **listeners**, which fire when the data differs from its previous snapshot.

A *state* registry keeps the named stores and observers. It also keeps four
tables of handlers recorded for store names that may not exist yet. It
replays them onto a store when that store is added. An *observer* puts
accessors on the properties of a plain object. Writing through them records
a snapshot and fires the listeners. It also patches the mutating methods of
the arrays the object holds.

The compiled `lib/` code is the reference. The older `src/` code is a second
flavour of the same machine. A `Kind` parameter chooses between the lib store,
the src store and the observer where the three differ:
- how the dirty check encodes values;
- how listener snapshots are made, and whether shadow keys are stripped from them;
- which registries `execute` searches, and whether it may start a load;
- how `setData` guards its argument (the observer refuses everything; the two
  stores test for a function in their own ways).

The main functions of `StoreSpec`, and every class method proved equal to
them, carry the corrected behaviour of the eight entries under "## Findings".
The code as written is kept beside each in its own member:
- `deepEquals` on dates: `Util.DeepEquals` compares times; `Util.DeepEqualsAsWritten` is the code.
- Stripping listener snapshots: `Tree.Strip(v, true)` removes every prefixed key; `Tree.Strip(v, false)` is the code.
- The `finally` of `execute`: `StoreSpec.Finish` clears `isLoading` only for the call that set it; `StoreSpec.FinishAsWritten` and `StoreSpec.EndLoadAsWritten` are the code.
- Listener parameters: `StoreSpec.ListenerParams` passes the change state itself; `StoreSpec.ListenerParamsAsWritten` packs it in an array.
- Snapshots of falsy data: `StoreSpec.Snapshot` and `StoreSpec.Accept` clone the data; `StoreSpec.SnapshotAsWritten` and `StoreSpec.AcceptAsWritten` give `null`.
- The previous state a setter records: `StoreSpec.Assign` records the whole target; `StoreSpec.AssignAsWritten` records the owning object.
- Arguments of `execute`: `StoreSpec.Begin` spreads them for every kind; `StoreSpec.ExecutorParamsAsWritten` packs them for `BaseStore` and the src store.
- The src type guard: `StoreSpec.GetType` yields `'function'` for functions; `StoreSpec.GetTypeAsWritten` and `StoreSpec.RefusesAsWritten` are the code.

Modules, one per file:

| file | module | what it holds |
|---|---|---|
| wrappers.dfy | `Wrappers` | `Option`, `Result` |
| values.dfy | `Values` | the JavaScript value tree: objects as ordered properties, with a flag for the ones behind an injected accessor; arrays with a flag for patched mutators; Maps as ordered entries; dates; opaque functions |
| util.dfy | `Util` | `stringify` as encoding into a JSON tree, `parseJsonString` with the Map reviver, `shallowClone`, `shallowEquals`, `deepClone`, `deepEquals`, `get` |
| actions.dfy | `Actions` | `ActionType`, `Action`, `Executable` and what `execute` resolves to |
| registry.dfy | `Registry` | the handler registries as sequences: upsert, first-match removal and lookup, the unbound tables and their replay |
| tree.dfy | `Tree` | `injectMonitorSetters` and `stripInjectedValues` on the value tree, paths into the tree, the native and patched array mutators |
| store_spec.dfy | `StoreSpec` | every store operation as a function of an explicit `StoreState` |
| store.dfy | `Stores` | the class `Store` (with `GenericDataStore` as a flag), proved against `StoreSpec` |
| observer.dfy | `Observers` | the class `StateObserver`, proved against `StoreSpec` |
| state.dfy | `Manager` | the class `State` and the static factories that go through it |

Program callbacks are opaque (`Callback`). A call's outcome, a returned value
or a thrown message, is a parameter. Every call the store makes into program
code is appended to an `invoked` log, so contracts can count listener firings.
The clock is a parameter `now`, in milliseconds. An `execute` is split at its
`await` into `Begin` and `Finish`, so overlapping loads can be written down.

## Model

| member | source | states |
|---|---|---|
| Values.ShadowKey | lib/core/StateObserver.js:26 | the shadow key of `k` carries the `@state__` prefix followed by `k` |
| Values.Lookup | lib/core/Util.js:128 | a property read is the first member with the key, and missing exactly when no member has it |
| Util.RoundTrip | lib/core/Util.js:148-173 | `parseJsonString(stringify(v))` gives back `v` for every JSON-safe value, Maps included |
| Util.RoundTripMap | lib/core/Util.js:148-158 | a Map with distinct keys encodes as `{dataType: 'Map', value: [[k, v], ...]}` in entry order and decodes back to the same Map |
| Util.ReviveMapObject | lib/core/Util.js:166-173 | the reviver turns an object tagged `dataType: 'Map'` into `new Map(value)` |
| Util.EntriesFromPairs | lib/core/Util.js:166-173 | `new Map(Array.from(m.entries()))` rebuilds `m` when its keys are distinct |
| Util.MapSet | lib/core/Util.js:166-173 | `map.set` keeps an existing key in place with the new value and appends a new key |
| Util.ShallowCloneOfSafe | lib/core/Util.js:29-34 | `shallowClone` gives `null` for a falsy value and the value itself for a truthy JSON-safe one |
| Util.DeepCloneOfPlain | lib/core/Util.js:52-92 | `deepClone` of a value without observer machinery is that value |
| Util.DeepCloneIsPlain | lib/core/Util.js:52-92 | a clone carries no observer machinery, so cloning it again changes nothing |
| Util.CloneItems | lib/core/Util.js:63-69 | an array clone clones element by element, same length and order |
| Util.CloneFields | lib/core/Util.js:82-90 | an object clone clones every own property, in order, as plain properties |
| Util.CloneEntries | lib/core/Util.js:71-80 | a Map clone clones keys and values entry by entry, in order |
| Util.EncodeDeepClone | src/core/Util.ts:7-50 | a clone encodes exactly like the original, with or without the Map replacer |
| Util.DeepEqualsArrays | lib/core/Util.js:105-116 | arrays are deep-equal iff they encode alike or have equal length and are deep-equal index by index |
| Util.DeepEqualsMaps | lib/core/Util.js:117-124 | Maps are deep-equal iff they encode alike or have equal size and deep-equal key and value sequences |
| Util.DeepEqualsObjects | lib/core/Util.js:125-134 | objects are deep-equal iff they encode alike or every own member of `a` is an own key of `b` with a deep-equal value |
| Util.DeepEqualsOneDirectional | lib/core/Util.js:125-134 | `{}` deep-equals `{k: 1}` but `{k: 1}` does not deep-equal `{}` |
| Util.DatesEqualAsWritten | lib/core/Util.js:125-134 | as written, the dates 0 and 1000 are deep-equal |
| Util.DatesEqual | lib/core/Util.js:100-137 | with the date check, two dates are deep-equal iff they denote the same time |
| Util.NatToStringInjective | lib/core/Util.js:140 | different indices give different property keys |
| Util.SplitJoin | lib/core/Util.js:140 | `split('.')` loses nothing: the segments join back to the path and hold no dot |
| Util.GetPathNullish | lib/core/Util.js:140 | once the fold reaches `null` or `undefined`, `get` yields `undefined` |
| Util.GetPathAppend | lib/core/Util.js:140 | the fold over a concatenation of segments is the fold over the second part from the result of the first |
| Util.GetDotted | lib/core/Util.js:140 | `get(d, "k.rest")` reads `k` and then `rest` from what it found |
| Util.GetSingle | src/core/Util.ts:53 | a path without dots is one property read, and an index key reads the array element |
| Actions.Ordinal | lib/core/Action.js:57-64 | the enum gives LOADER 0, TRANSFORMER 1, LISTENER 2, ACTION 3 and INLINE_ACTION 4, and its reverse mapping gives each member back |
| Actions.FromOrdinal | src/core/Action.ts:10 | the reverse mapping is defined exactly for 0 to 4 |
| Actions.NewAction | lib/core/Action.js:73-78 | the record keeps name, callback and type; the type defaults to ACTION |
| Actions.NoOpAction | lib/core/Store.js:520-522 | the no-op is an ACTION whose callback does nothing |
| Actions.CreateExecutor | lib/core/Action.js:104-110 | the parameters are kept exactly as passed |
| Actions.Run | lib/core/Action.js:116-135 | without a callback the call resolves to `undefined`; otherwise to the callback's result, or it rejects with the thrown message wrapped in an `Error` |
| Actions.Calls | src/core/Action.ts:62-70 | the callback is called once, with the stored parameters, exactly when there is one |
| Registry.IndexOf | lib/core/Store.js:119-121 | the index is the first position with the name, and missing exactly when no handler has it |
| Registry.Find | lib/core/Store.js:141 | `find` returns the handler at that first position |
| Registry.RemoveFirst | lib/core/Store.js:117-131 | `removeEventHandler` removes one handler when the name is present and nothing otherwise |
| Registry.RemoveFirstSpec | lib/core/Store.js:117-131 | removal leaves every handler with another name where it was and lowers the count of the name by one when it is present |
| Registry.RemoveFirstUnique | src/core/Store.ts:583-597 | on a registry without duplicates, removal leaves no handler with the name |
| Registry.Upsert | lib/core/Store.js:139-162 | a `create*` call ends with the new handler last |
| Registry.UpsertSpec | lib/core/Store.js:163-185 | on a registry without duplicates, a `create*` keeps names unique, leaves exactly one handler with the name, and keeps the other handlers in order |
| Registry.UpsertSteps | lib/core/Store.js:436-482 | find, remove the match and push together make the upsert, and the new handler is what a lookup by its name finds |
| Registry.UpsertFinds | src/core/Store.ts:447-545 | after an upsert, lookup by the name finds the new handler |
| Registry.FindEventHandler | lib/core/Store.js:494-496 | actions are searched first, then loaders, then transformers; the first hit wins, and nothing is found only when no registry has the name |
| Registry.AddUnbound | lib/core/State.js:22-51 | the store's list gets the handler by upsert, the store key is added, and every other key keeps its list |
| Registry.RetypeAll | lib/core/State.js:133-166 | the replayed handlers keep name and callback, take the table's type, and keep their order |
| Registry.RemoveUniqueIsFilter | lib/core/Store.js:117-131 | on a registry without duplicates, removing by name is filtering by it |
| Registry.ReplaySpec | lib/core/State.js:130-168 | replaying a table onto a registry drops the earlier handlers sharing a name with the table and appends the table's handlers, retyped, in order |
| Registry.ReplayUnique | src/core/State.ts:154-192 | replay keeps the registry free of duplicate names |
| Registry.IndexOfRetypeAll | lib/core/State.js:135-139 | retyping keeps names in place, so a lookup finds the same position |
| Tree.Erase | lib/core/StateObserver.js:101-166 | forgetting the observer machinery leaves a value without any |
| Tree.InjectProps | lib/core/StateObserver.js:143-159 | after injection, a property is behind an accessor exactly when it was already, or its value is neither object-typed nor a function; keys keep their order (re-injection is simplified, see "## Left out") |
| Tree.InjectMembers | lib/core/StateObserver.js:116-122 | only the object-typed elements of an array are injected |
| Tree.InjectKeepsData | lib/core/StateObserver.js:101-166 | injection only adds machinery: the data the tree holds is unchanged |
| Tree.InjectPropsAt | lib/core/StateObserver.js:139-159 | a scalar becomes watched with its value, and anything else is injected in place; a property already watched keeps its key, value and accessor (the extra shadow the code adds then is under "## Left out") |
| Tree.InjectReadsBack | lib/core/StateObserver.js:143-149 | after injection a scalar property is behind an accessor, and reading it gives the value it held |
| Tree.StripCleans | lib/core/StateObserver.js:184-218 | the corrected strip leaves no prefixed key at any depth |
| Tree.StripKeys | src/core/StateObserver.ts:166-194 | the corrected strip keeps exactly the keys without the prefix, in order |
| Tree.StripOfClean | lib/core/StateObserver.js:184-218 | stripping a tree without prefixed keys changes nothing |
| Tree.StripIdempotent | lib/core/StateObserver.js:184-218 | stripping twice is stripping once |
| Tree.StripKeepsNullShadowAsWritten | lib/core/StateObserver.js:188-189 | as written, `{"@state__x": null}` survives the strip with its prefixed key |
| Tree.PropIndex | lib/core/StateObserver.js:143-145 | the index is the first property with the key, and missing exactly when there is none |
| Tree.SetKey | lib/core/StateObserver.js:150-156 | a write to an existing key replaces its value in place, a new key is appended, other properties stay |
| Tree.UpdateThenAt | lib/core/StateObserver.js:150-156 | writing a part of the tree and reading it back gives what was written |
| Tree.UpdateWithSame | lib/core/StateObserver.js:150-151 | writing back what is there changes nothing |
| Tree.AtAppend | lib/core/StateObserver.js:101-166 | following one path and then another is following their concatenation |
| Tree.GetPropFirst | lib/core/StateObserver.js:146-148 | a read finds the first property with the key, before any shadow key |
| Tree.Native | lib/core/StateObserver.js:128 | the native mutators conserve elements: `pop` and `shift` take one off a non-empty array, `push` and `unshift` add their arguments and return the new length, `concat` leaves the array unchanged, and `splice` removes exactly what it returns and adds what it inserts |
| Tree.Patched | lib/core/StateObserver.js:125-138 | the patched method leaves an array of the native length and returns the native result |
| Tree.SpliceCount | lib/core/StateObserver.js:128 | the clamped delete count never runs past the end of the array |
| StoreSpec.Snapshot | lib/core/Store.js:102-104 | the corrected snapshot is plain and encodes, types and tests truthy like the data |
| StoreSpec.SnapshotIsClean | lib/core/Store.js:98-101 | data is never dirty against its own snapshot, in either mode and for every kind of store |
| StoreSpec.Accept | lib/core/Store.js:102-104 | `acceptDirtyData` changes only the previous state and leaves the store clean |
| StoreSpec.AcceptAsWrittenLeavesFalsyDirty | lib/core/Store.js:102-104 | as written, accepting the data `0` leaves the store dirty; with the corrected snapshot it is clean |
| StoreSpec.SrcCloneIsShallowClone | src/core/Store.ts:358-372 | the src store's extra `deepClone` before `shallowClone` changes nothing |
| StoreSpec.ViewIsClean | src/core/Store.ts:358-372 | the observer and the src store hand listeners snapshots without a prefixed key at any depth |
| StoreSpec.ViewOfSafe | lib/core/Store.js:108-109 | a falsy value is handed over as `null`, and a JSON-safe clean one as itself |
| StoreSpec.ChangeState | lib/core/Store.js:112 | the change state reads back `newState` and `previousState` |
| StoreSpec.ListenerArgumentAsWritten | lib/core/Store.js:113 | as written, a listener's argument is a one-element array, so `newState` reads `undefined` on it |
| StoreSpec.Notify | lib/core/Store.js:110-114 | the listener loop calls at most one callback per listener, each with the same parameters |
| StoreSpec.NotifyEach | lib/core/Store.js:110-114 | with program callbacks, listener `i` makes call `i`, one call per listener |
| StoreSpec.ExecuteListeners | lib/core/Store.js:105-116 | only the invocation log changes; a clean store runs nothing; a failed snapshot changes nothing |
| StoreSpec.ListenersFireOnce | lib/core/Store.js:105-116 | a dirty store calls every listener exactly once, in order, with the change state |
| StoreSpec.GetTypeAsWritten | src/core/Store.ts:273-283 | as written, `getType` never yields `'function'` |
| StoreSpec.GetType | src/core/Store.ts:273-283 | corrected, `getType` yields `'function'` exactly for functions |
| StoreSpec.RefusesFunctions | lib/core/Store.js:84-87 | with the corrected guard both stores refuse exactly the functions |
| StoreSpec.SrcAcceptsFunctionAsWritten | src/core/Store.ts:256-261 | as written the src store accepts a function as its data |
| StoreSpec.SetData | lib/core/Store.js:410-414 | the observer always throws and a function is refused, both with no change; otherwise only data, previous, store time and the log change |
| StoreSpec.SetDataSameIsSilent | lib/core/Store.js:84-90 | setting the value a store already holds fires no listener and leaves it clean |
| StoreSpec.SetDataNotifies | lib/core/Store.js:410-414 | setting a new value that the dirty check sees stamps the time and fires every listener once, with both snapshots |
| StoreSpec.StaleStaysStale | lib/core/Store.js:394-409 | once the cache is stale, it stays stale as time goes on |
| StoreSpec.Handler | lib/core/Store.js:519-522 | the handler `execute` finds carries the requested name |
| StoreSpec.Begin | lib/core/Store.js:519-540 | up to the awaited call only `isLoading` and the log change; a load is started exactly when the loader is not gated, and at most one call is made |
| StoreSpec.Complete | lib/core/Store.js:545-561 | completing a successful call keeps the registries and `isLoading`, and returns the call's value |
| StoreSpec.FinishWith | lib/core/Store.js:544-567 | finishing never changes a registry |
| StoreSpec.Finish | lib/core/Store.js:565-566 | with the corrected `finally`, `isLoading` is cleared exactly by the call that set it |
| StoreSpec.FinishAsWritten | lib/core/Store.js:565-566 | as written, every finish of a store clears `isLoading` |
| StoreSpec.Execute | lib/core/Store.js:507-572 | a whole execution keeps the registries, and ends not loading when it began not loading |
| StoreSpec.UnknownIsNoOp | lib/core/Store.js:519-522 | an unknown name returns `undefined` and only the listeners run |
| StoreSpec.TransformerGetsData | lib/core/Store.js:523-525 | a transformer's callback receives the data in front of the arguments, and the data stays as it was |
| StoreSpec.LoaderGated | lib/core/Store.js:526-533 | a loader while loading, or while the cache is fresh, is replaced by the no-op and no callback runs |
| StoreSpec.LoaderCompletes | lib/core/Store.js:545-556 | a loader that runs returns its result and stores it, stamps both times, sets the cache flag on a cachable store, and ends clean and not loading |
| StoreSpec.LoaderStores | lib/core/Store.js:545-556 | completing a loader that returned storable data over storable data returns and stores it, stamps both times, sets the cache flag on a cachable store and ends clean |
| StoreSpec.ReloadPolicy | lib/core/Store.js:394-409 | after a load, the loader runs again iff the store is not cachable, or its positive timeout has passed |
| StoreSpec.ThrowingCallback | lib/core/Store.js:562-564 | a throwing callback rejects with the wrapped error, and no listener runs after it |
| StoreSpec.BeginKeepsLoadInv | lib/core/Store.js:526-533 | starting an execution keeps the loading flag equal to "a load is in flight" |
| StoreSpec.FinishKeepsLoadInv | lib/core/Store.js:565-566 | with the corrected `finally`, finishing keeps that invariant |
| StoreSpec.OverlappingLoadsAsWritten | lib/core/Store.js:565-566 | as written, a gated loader call that finishes clears `isLoading`, so a third call starts a second load while the first is in flight |
| StoreSpec.ArgumentsPackedAsWritten | lib/core/Store.js:229 | as written, `BaseStore` and the src store pass the arguments as one array; corrected, a transformer gets the data and its argument spread |
| StoreSpec.Forwarded | lib/core/Store.js:268-270 | a step receiving a forwarded result has it in front of its parameters; otherwise the step is unchanged |
| StoreSpec.ChainFrom | lib/core/Store.js:253-287 | the chain keeps one step definition per step, and a successful chain has one result per step |
| StoreSpec.ChainFromForwards | lib/core/Store.js:262-280 | results are index-aligned with steps, and step `i + 1` got step `i`'s result exactly when step `i` has `forwardResult` |
| StoreSpec.ChainFromStep | src/core/Store.ts:411-426 | a chain is its first step followed by the rest from the state that step left; a rejection stops it |
| StoreSpec.Register | lib/core/StateObserver.js:63-71 | registering a decorator changes only the registries |
| StoreSpec.Decorate | src/core/Store.ts:91-130 | registering decorators in order changes only the registries |
| StoreSpec.RegisterSpec | src/core/Store.ts:103-117 | a decorator's handler is what a lookup by its key finds, and no registry gets a duplicate name; the observer ignores loaders and transformers |
| StoreSpec.DecorateUnique | src/core/Store.ts:91-130 | registering decorators keeps every registry free of duplicate names |
| StoreSpec.ObserveLib | lib/core/StateObserver.js:51-84 | the observer holds the target's data and starts clean, in both dirty-check modes |
| StoreSpec.ObserveSrc | src/core/Store.ts:91-130 | the src observable store holds the target's data and stamps the store time, unless the target is a function |
| StoreSpec.Written | lib/core/StateObserver.js:150-156 | after the write, the key of the object at the path reads the new value |
| StoreSpec.Assign | lib/core/StateObserver.js:150-158 | writing the value a watched property holds does nothing; a plain property changes only the data; a successful write reads back |
| StoreSpec.AssignEndsClean | lib/core/StateObserver.js:150-158 | a change through a watched property leaves the store clean |
| StoreSpec.AssignNotifies | src/core/StateObserver.ts:132-140 | a change through a watched property that the dirty check sees fires every listener once |
| StoreSpec.SetterPreviousAsWritten | lib/core/StateObserver.js:152-153 | as written, `a.b = 2` on `{a: {b: 1}}` records the inner object as previous, which has no key `a` |
| StoreSpec.Mutate | lib/core/StateObserver.js:125-138 | a mutator returns the native result, never accepts, and fires listeners only on a patched array whose length changed |
| StoreSpec.PatchedKeepsData | lib/core/StateObserver.js:130-133 | a patched method stores the same data as the native one |
| StoreSpec.ConcatIsSilent | lib/core/StateObserver.js:125-138 | `concat` changes nothing and fires no listener |
| StoreSpec.MutateNotifies | src/core/StateObserver.ts:102-122 | a length change on a patched array fires every listener once when the dirty check sees it |
| Stores.FlagOf | lib/core/Store.js:303 | a flag option is true exactly when it is given as `true` |
| Stores.TimeoutOf | lib/core/Store.js:306 | a missing or zero timeout becomes -1, and any other is kept |
| Stores.PrefixOf | lib/core/Store.js:307 | a missing prefix becomes the empty string |
| Stores.Store.constructor | lib/core/Store.js:301-312 | a new store has the options' settings, empty registries, no data and no timestamps |
| Stores.Store.GetData | lib/core/Store.js:79-83 | with `clone`, the lib store returns a plain copy that encodes like the data; otherwise, and for the src and generic stores, the data itself |
| Stores.Store.AcceptDirtyData | lib/core/Store.js:102-104 | the store state makes the step `Accept` and is clean afterwards |
| Stores.Store.ExecuteListeners | lib/core/Store.js:105-116 | the loop over the listeners makes the step `StoreSpec.ExecuteListeners` |
| Stores.NotifyListeners | lib/core/Store.js:110-114 | the loop over the listeners makes exactly the calls `StoreSpec.Notify` lists, in listener order |
| Stores.Store.SetData | lib/core/Store.js:410-414 | the store state makes the step `StoreSpec.SetData` |
| Stores.Store.SetPreviousData | src/core/Store.ts:269-271 | only the previous state changes |
| Stores.Store.CreateListener | lib/core/Store.js:139-162 | the listeners get the upsert and nothing else changes; without duplicates before, the new listener is the one found by its name |
| Stores.Store.CreateAction | lib/core/Store.js:163-185 | the actions get the upsert, typed INLINE_ACTION when inline, and nothing else changes |
| Stores.Store.CreateLoader | lib/core/Store.js:436-460 | the loaders get the upsert and nothing else changes |
| Stores.Store.CreateTransformer | lib/core/Store.js:461-482 | the transformers get the upsert and nothing else changes |
| Stores.Store.RemoveListener | lib/core/Store.js:194-196 | the first listener with the name is removed, and the call returns true |
| Stores.Store.RemoveAction | lib/core/Store.js:186-188 | the first action with the name is removed, and the call returns true |
| Stores.Store.RemoveLoader | lib/core/Store.js:483-485 | the first loader with the name is removed, and the call returns true |
| Stores.Store.RemoveTransformer | lib/core/Store.js:491-493 | the first transformer with the name is removed, and the call returns true |
| Stores.Store.Begin | lib/core/Store.js:519-540 | the state up to the awaited call makes the step `StoreSpec.Begin` |
| Stores.Store.Finish | lib/core/Store.js:544-567 | the state after the awaited call makes the step `StoreSpec.Finish` |
| Stores.Store.Complete | lib/core/Store.js:545-559 | after a successful call, the state and the result make the step `StoreSpec.Complete`: a loader stamps, stores and accepts, any other action runs the listeners |
| Stores.Store.Execute | lib/core/Store.js:507-572 | a whole execution makes the step `StoreSpec.Execute` |
| Stores.Store.Chain | lib/core/Store.js:253-287 | the loop over the steps makes `StoreSpec.Chain`: its results, its rewritten step definitions and its final state |
| Stores.Store.Observe | src/core/Store.ts:91-130 | registering the decorators, injecting and storing the target make `ObserveSrc`, and the registries stay free of duplicates |
| Stores.Store.Register | src/core/Store.ts:103-117 | one decorator makes the step `StoreSpec.Register` |
| Stores.Store.Assign | src/core/Store.ts:176-184 | a write through the injected setter makes the step `StoreSpec.Assign` |
| Stores.Store.AssignWatched | src/core/Store.ts:177-183 | a changed watched property records the previous state, writes, runs the listeners and, when they succeed, accepts the data |
| Observers.StateObserver.constructor | lib/core/StateObserver.js:29-31 | a new observer has its name, empty registries and no data |
| Observers.StateObserver.SetData | lib/core/StateObserver.js:35-37 | `setData` always throws and changes nothing |
| Observers.StateObserver.AcceptDirtyData | lib/core/Store.js:102-104 | the observer state makes the step `Accept` and is clean afterwards |
| Observers.StateObserver.SetPreviousData | lib/core/StateObserver.js:167-169 | only the previous state changes |
| Observers.StateObserver.ExecuteListeners | lib/core/StateObserver.js:170-183 | the loop over the listeners, with stripped snapshots, makes the step `StoreSpec.ExecuteListeners` |
| Observers.StateObserver.CreateListener | lib/core/Store.js:139-162 | the listeners get the upsert and nothing else changes |
| Observers.StateObserver.CreateAction | lib/core/Store.js:163-185 | the actions get the upsert and nothing else changes |
| Observers.StateObserver.RemoveListener | lib/core/Store.js:194-196 | the first listener with the name is removed, and the call returns true |
| Observers.StateObserver.RemoveAction | lib/core/Store.js:186-188 | the first action with the name is removed, and the call returns true |
| Observers.StateObserver.Execute | lib/core/Store.js:207-252 | a `BaseStore` execution, searching actions only, makes the step `StoreSpec.Execute` |
| Observers.StateObserver.Chain | lib/core/Store.js:253-287 | the loop over the steps makes `StoreSpec.Chain` |
| Observers.StateObserver.Register | lib/core/StateObserver.js:63-71 | one decorator makes the step `StoreSpec.Register`; loaders and transformers are ignored |
| Observers.StateObserver.Observe | lib/core/StateObserver.js:56-82 | registering the decorators, injecting the target and snapshotting it make `ObserveLib`, and the observer is clean |
| Observers.StateObserver.Assign | lib/core/StateObserver.js:150-158 | a write through the injected setter makes the step `StoreSpec.Assign` |
| Observers.StateObserver.AssignWatched | lib/core/StateObserver.js:150-158 | a changed watched property records the previous state, writes, runs the listeners and, when they succeed, accepts the data |
| Observers.StateObserver.Mutate | lib/core/StateObserver.js:125-138 | a call of a mutator makes the step `StoreSpec.Mutate` |
| Manager.AddUnboundUnique | lib/core/State.js:22-51 | recording an unbound handler keeps its table free of duplicate names, and it is what a lookup by its name finds |
| Manager.StoreIndex | lib/core/State.js:200-202 | the index is the first store with the name, and missing exactly when there is none |
| Manager.ObserverIndex | lib/core/State.js:225-227 | the index is the first observer with the name, and missing exactly when there is none |
| Manager.Spliced | lib/core/State.js:204 | `splice(i, 1)` drops element `i` and shifts the rest down by one |
| Manager.Bound | lib/core/State.js:130-168 | replaying the tables changes only a store's registries |
| Manager.BoundFresh | lib/core/State.js:130-168 | a new store added to the registry holds exactly the handlers recorded for its name, retyped, in table order |
| Manager.ListenerAddedBeforeStore | lib/core/State.js:130-140 | a listener added for a store that does not exist yet is on the store once a store of that name is added |
| Manager.ReplayIntoStep | lib/core/State.js:133-166 | replaying one more handler is creating it on the store |
| Manager.ReplayOnto | lib/core/State.js:133-166 | the loop over one table creates its handlers on the store, in order, and keeps the store free of duplicates |
| Manager.State.constructor | lib/core/State.js:10-17 | a new registry has no stores, no observers and empty tables |
| Manager.State.FindStore | lib/core/State.js:181-183 | the first store with the name, or nothing exactly when no store has it |
| Manager.State.FindStateObserver | lib/core/State.js:189-191 | the first observer with the name, or nothing exactly when no observer has it |
| Manager.State.AddUnboundEventHandler | lib/core/State.js:22-51 | the chosen table gets the upsert under the store name, the other tables and lists stay, and the call returns true |
| Manager.State.AddListener | lib/core/State.js:61-68 | the listener is recorded, and created on the first store with that name if there is one; no other store changes; the call returns true |
| Manager.State.AddAction | lib/core/State.js:78-85 | the action is recorded, and created on an existing store of that name |
| Manager.State.AddLoader | lib/core/State.js:95-102 | the loader is recorded, and created on an existing store of that name |
| Manager.State.AddTransformer | lib/core/State.js:116-123 | the transformer is recorded, and created on an existing store of that name |
| Manager.State.AddStore | lib/core/State.js:130-168 | the store is appended, and its registries become the replay of the four tables for its name |
| Manager.State.AddStateObserver | lib/core/State.js:173-175 | the observer is appended and nothing else changes |
| Manager.State.RemoveStore | lib/core/State.js:197-216 | the first store with the name is removed and the name's table entries deleted; with no such store nothing changes; the call returns true |
| Manager.State.RemoveStateObserver | lib/core/State.js:222-237 | the first observer with the name is removed, and the call returns true |
| Manager.State.ClearStores | lib/core/State.js:242-255 | no stores and empty tables, observers kept, and the call returns true |
| Manager.State.ClearObservers | lib/core/State.js:260-268 | no observers, everything else kept, and the call returns true |
| Manager.State.Clear | lib/core/State.js:273-275 | everything is empty, and the call returns true |
| Manager.State.CreateStore | lib/core/Store.js:342-350 | a taken name is refused with no change; otherwise a fresh store with the recorded handlers is appended |
| Manager.State.ObservableStore | src/core/Store.ts:91-130 | any store of that name is replaced by a fresh src store, which observes the target with the recorded handlers first; the observers stay, and the name's table entries are forgotten exactly when a store of that name existed |
| Manager.State.ObservableObserver | lib/core/StateObserver.js:51-84 | any observer of that name is replaced by a fresh one, which holds the target and starts clean; the stores and the four tables stay |

## Left out

- Persistence: `localStorage`, `cacheData`, `persistCache` and the host check. These are browser I/O; the flag is kept, but nothing is written or read back.
- Real asynchrony: an `execute` is one `Begin` and one `Finish`. Interleavings are written down by hand, and listener calls, which are not awaited, run at once.
- The clock: one `now` is passed per call. A whole `chain` shares one `now`.
- Dates as text: `new Date()` is held as milliseconds.
- Object identity and aliasing. Values are trees with value semantics, and the `!==` test of the setter is structural inequality.
- Rewriting in place: injection and stripping are functions on a value. What the code shares between the target and the observer's data is therefore not modelled.
- Array methods by index: the index accessors the observer's loop may add, and re-injecting the arguments of `push` and `unshift`, are modelled as injecting the inserted elements.
- An inline action calls a method of the data. Its effect on the data is not modelled; only its call and outcome are.
- StoreSpec.Begin: the method an inline action calls is looked up as an own property of the data holding a function. The code's `this.getData()[action.name]` (lib/core/Store.js:535-536 and 224-225, src/core/Store.ts:322-323) also reads the prototype chain, so a class method that the inline-action decorator marks, or a built-in like `toString` on `{}`, is found there. The model has no prototypes: for such a method it gives `Err(TypeError(...))` where the program calls it. The same holds for Observers.StateObserver.Execute.
- Floating point: numbers are integers.
- User keys that already carry the `@state__` prefix are not considered.
- Property order: an object keeps its keys in insertion order. JavaScript lists integer-like keys first, in ascending order, in `for..in` and in `JSON.stringify`. So `Util.Encode`, `Util.ShallowEquals` and `StoreSpec.IsDirty` can see a change where the code sees none: `{b: 1, "1": 2}` against `{"1": 2, b: 1}` is dirty in the model, and clean in the program (src/core/Store.ts:288, lib/core/Util.js:42-44). Objects without integer-like keys are ordered alike in both.
- Tree.InjectProps, Tree.InjectPropsAt: a property already behind an accessor is kept as it is, as the comment at lib/core/StateObserver.js:93-95 describes. The code at 139-159 has no such test. It reads the value back through the getter and redefines the accessor, which leaves that key as it was. But its `for..in` loop also visits the shadow key `@state__k` and puts an accessor on it, with a second shadow `@state__@state__k`. That happens when an observed value is injected again: when it is observed a second time, or when `push` or `unshift` gets an element that is already observed (130-133). The model cannot put an accessor on a shadow key, so it does not capture this second shadow, nor the setter running through two accessors.
- Decorators and `StateSingleton`: lib/core/Decorators.js and lib/core/StateSingleton.js are not part of this model. The decorator list is a parameter, and the singleton is one `State` instance passed around.
- Type declarations, `index` re-exports and console logging.
- Stores.Store: `cacheTimeoutSeconds` is a constant of the store, although the source lets it be reassigned.
- Stores.Store.GetData: the src and generic stores ignore `clone`; only that case is stated, not what a caller does with the shared reference.
- Shared `BaseStore` methods are written once per class (`Store`, `StateObserver`) against one specification, `StoreSpec`.
- src/core/StateObserver.ts imports a `BaseStore` that src/core/Store.ts does not define. Its behaviour is taken to be the lib observer's.
- `createStore` on the src `Store` and on both `GenericDataStore`s differ only in the `generic` flag. In this model `GenericDataStore` differs from `Store` only in `getData` ignoring `clone`.
- Stores.Store.Observe: it requires a store of the src flavour, because the lib `Store` has no `observableStore`.

## Findings

| source | as written | input that shows it | evidently intended | confidence | as-written member | corrected member |
|---|---|---|---|---|---|---|
| lib/core/Util.js:125-134 | two dates are compared as objects, and a date has no own keys, so any two dates are deep-equal | `deepEquals(new Date(0), new Date(1000))` is true | dates are deep-equal exactly when they denote the same time | not executed | Util.DatesEqualAsWritten | Util.DatesEqual |
| lib/core/StateObserver.js:188-189 | the `null` test comes before the prefix test, so a shadow key holding `null`, an array or a Map is never deleted | the snapshot `{"@state__x": null}`, left after `x = null` on an observed `{x: 1}`, keeps its prefixed key | every prefixed key is removed from listener snapshots | not executed | Tree.StripKeepsNullShadowAsWritten | Tree.StripCleans |
| lib/core/Store.js:565-566 | the `finally` clears `isLoading` after every call, also one whose loader was gated because a load was running | a loader call while another is in flight finishes first; a third call then starts a second load | `isLoading` is cleared by the call that set it | not executed | StoreSpec.OverlappingLoadsAsWritten | StoreSpec.FinishKeepsLoadInv |
| lib/core/Store.js:113 | listeners are given `createExecutor(listener, [changeState])`, so their one argument is an array | `changeState.newState` in a listener reads `undefined` | the listener receives the change state itself | not executed | StoreSpec.ListenerArgumentAsWritten | StoreSpec.ListenersFireOnce |
| lib/core/Store.js:102-104 | the snapshot is `getData() ? deepClone(getData()) : null`, so falsy data is snapshotted as `null` | after `acceptDirtyData` with data `0`, `isDirty()` is still true | accepting always leaves the store clean | not executed | StoreSpec.AcceptAsWrittenLeavesFalsyDirty | StoreSpec.Accept |
| lib/core/StateObserver.js:152-153 | the setter records a copy of the object that owns the property, not of the whole target | `a.b = 2` on `{a: {b: 1}}` reports the previous state `{b: 1}` | the previous state is the whole target before the write | not executed | StoreSpec.SetterPreviousAsWritten | StoreSpec.AssignEndsClean |
| lib/core/Store.js:229 | `BaseStore.execute` and the src store pass the arguments to `createExecutor` as one array | a src transformer called with `x` receives the one argument `[data, x]` | the arguments are spread, as lib/core/Store.js:540 does | not executed | StoreSpec.ArgumentsPackedAsWritten | StoreSpec.TransformerGetsData |
| src/core/Store.ts:273-283 | `getType` looks up `toString.call(data)` in an empty object, so every object and function is `'object'` | `setData(() => 1)` on a src store is accepted | functions are refused, as the lib store does | not executed | StoreSpec.SrcAcceptsFunctionAsWritten | StoreSpec.RefusesFunctions |
