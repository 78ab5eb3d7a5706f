# indexeddbstore in Dafny

A model of the two pieces of logic in the indexeddbstore library that can be
verified apart from the browser's storage engine.

- `lib/utils.js`: the GUID helpers `S4` and `guid`, the in-place `extend`, and
  `toPromise`, which bridges a request object's `onsuccess`/`onerror` callbacks
  to a Q deferred.
- `lib/IndexedDBStore.js`: the store over the single object store `"test"`,
  version 2. The model covers the constructor's checks, `getDb` with its upgrade
  guard, the cursor loop of `all()`, and the value that `save`, `size`, `get`
  and `clear` resolve with.

The engine is an interface (`indexeddb.dfy`). Request objects have handler
slots. A database is a map from object-store names to stores. The engine's
answers are inputs to each operation: the database object, whether
`upgradeneeded` fires, and the success or error events it delivers. Closures
that the code stores in a slot are datatype values that record what they
capture. `Invoke` runs a closure body, and `Deliver` is the engine calling the
slot that fits the event. Q's deferred is modelled only as its settle-once
state (`q.dfy`). JavaScript values are in `js.dfy`.

Files and modules: `js.dfy` (`Js`), `q.dfy` (`Q`), `indexeddb.dfy` (`IndexedDB`),
`utils.dfy` (`Utils`), `store.dfy` (`Store`).

The code is narrower than the library's stated design, and the model follows
the code. The code has one hard-coded store, `"test"`. It has
no `use`, `exists`, `destroy` or `create`, no batch saves and no GUID keys. The
store does not call `toPromise` or `guid`; it writes its own deferred handlers.
`get` resolves with `evt.result`, not `evt.target.result` (see Findings).

## Model

| member | source | states |
|---|---|---|
| `Utils.ToHexOfOffsetWord` | lib/utils.js:15 | `(0x10000 + n).toString(16)` is `1` followed by the four hex digits of `n`, most significant first |
| `Utils.S4` | lib/utils.js:14-16 | for every n in [0, 0xFFFF]: exactly four lowercase hex digits whose value is n, so n zero-padded |
| `Utils.Guid` | lib/utils.js:47-49 | length 36; a character is `-` exactly at indices 8, 13, 18 and 23; a lowercase hex digit everywhere else |
| `Utils.GuidWithoutDashes` | lib/utils.js:48 | removing the dashes leaves the eight `S4` outputs concatenated in call order |
| `Utils.GuidRoundTrip` | lib/utils.js:48 | parsing the four-digit groups of a GUID gives back the eight 16-bit inputs |
| `Utils.GuidInjective` | lib/utils.js:48 | equal GUIDs come from equal input words: the map from draws to text is injective |
| `Utils.Extend` | lib/utils.js:28-38 | mutates `obj` in place, returns the same `obj`, and leaves it with `Extended(old props, sources)` (sources copied left to right) |
| `Utils.ExtendLastSourceWins` | lib/utils.js:29-35 | a property defined on some truthy source ends with the value from the last such source |
| `Utils.ExtendKeepsUndefined` | lib/utils.js:29-35 | a property that no truthy source defines keeps its presence or absence and its value |
| `Utils.ExtendKeys` | lib/utils.js:29-35 | afterwards `obj` has exactly its own properties plus those of the truthy sources |
| `Utils.ExtendSkipsFalsy` | lib/utils.js:30 | inserting a falsy source anywhere in the argument list changes nothing |
| `Utils.ToPromise` | lib/utils.js:61-87 | throws, with both slots untouched, iff `onerror` or `onsuccess` is `undefined`; otherwise installs both closures over a fresh pending deferred and the `options` object itself (read later, when an event fires) and returns that deferred |
| `Utils.Invoke` | lib/utils.js:68-84 | an override is called iff `options` is non-null and its `success` (or `error`) is truthy when the event fires; it receives the event and the closure's deferred, the default settle does not happen, and the deferred settles as the override settles it; without one, success resolves with `evt.target.result` and error rejects with `evt.target.error` |
| `Utils.Deliver` | lib/utils.js:68-84 | the engine's success or error event runs the closure in `onsuccess` or `onerror`, with the effect `Invoke` states, including the override call with that event; nothing runs when the slot holds no closure of this code |
| `Utils.ToPromiseThenDeliver` | lib/utils.js:61-87 | `toPromise` followed by one event: without an override the promise resolves with `evt.target.result` on success and rejects with `evt.target.error` on error; with one, the override is called with the event and the returned deferred, the default settle does not happen, and the promise settles as the override settles it |
| `Store.Upgraded` | lib/IndexedDBStore.js:41-48 | afterwards `"test"` is present; it is created empty with auto-increment keys only if it was absent; no other store is added and existing ones are unchanged |
| `Store.UpgradeIdempotent` | lib/IndexedDBStore.js:44-46 | running the upgrade handler a second time changes nothing |
| `Store.OnUpgradeNeeded` | lib/IndexedDBStore.js:41-48 | the handler turns the database's stores into `Upgraded(old stores)` and calls `createObjectStore` only when `contains` is false |
| `Store.Invoke` | lib/IndexedDBStore.js:77-87 | the cursor closure: a non-null cursor appends exactly one wrapped record and leaves the deferred alone; a null cursor resolves with the records so far and pushes nothing; any other closure settles its deferred once with its `Reaction` |
| `Store.Deliver` | lib/IndexedDBStore.js:73-87 | a success event runs the closure in `onsuccess` and an error event the one in `onerror`, with the effect `Store.Invoke` states |
| `Store.RecordsAccumulate` | lib/IndexedDBStore.js:77-83 | while the cursor delivers records, the list holds the wrapped values in delivery order, one per event, and the promise stays pending |
| `Store.AllResolvesWithRecords` | lib/IndexedDBStore.js:77-87 | k records followed by a null cursor resolve `all()` with the k wrapped records in order, a list of length k |
| `Store.AllRejectsOnError` | lib/IndexedDBStore.js:73-75 | an error event after any number of records rejects with `evt.target.error` |
| `Store.ScannedSettlesOnce` | lib/IndexedDBStore.js:68-89 | once `all()`'s deferred is settled, further events do not change its settlement |
| `Store.GetMissesFoundRecord` | lib/IndexedDBStore.js:138-140 | for a success event whose `target.result` is the record and which has no `result` of its own, `get` as written resolves with `undefined` |
| `Store.IntendedGetFindsRecord` | lib/IndexedDBStore.js:138-140 | reading `evt.target.result` resolves with the record found, and errors still reject with `evt.target.error` |
| `Store.IndexedDBStore.constructor` | lib/IndexedDBStore.js:25-26 | `options` is stored and `name` equals `options.dbName` |
| `Store.IndexedDBStore.New` | lib/IndexedDBStore.js:16-34 | undefined options throw a TypeError first; a missing engine throws the "not supported" Error; otherwise a store whose `name` is `options.dbName` is made, and the engine records exactly one open of `(options.dbName, 2)`; a throw opens nothing |
| `Store.IndexedDBStore.GetDb` | lib/IndexedDBStore.js:36-61 | appends one open of `(name, 2)` to the engine's history and installs the upgrade guard, a success handler resolving with `evt.target.result` and an error handler rejecting with `evt.target.error` |
| `Store.IndexedDBStore.Connect` | lib/IndexedDBStore.js:36-61 | opens the database again (one more open of `(name, 2)`); after the open events the stores are upgraded iff `upgradeneeded` fired, and the connection promise is resolved with `evt.target.result` or rejected with `evt.target.error` |
| `Store.IndexedDBStore.All` | lib/IndexedDBStore.js:66-91 | reopens the database once, as every operation does; a read-only cursor request on `"test"`; the result is the cursor scan of the delivered events; an open error or a missing store rejects |
| `Store.IndexedDBStore.Save` | lib/IndexedDBStore.js:93-109 | a read-write `put(blob)`; on success it resolves with `blob` itself, not the generated key; on error it rejects with `evt.target.error` |
| `Store.IndexedDBStore.Size` | lib/IndexedDBStore.js:111-126 | a `count()` in a transaction opened with no mode argument; resolves with the count request's `evt.target.result` |
| `Store.IndexedDBStore.Get` | lib/IndexedDBStore.js:128-144 | a read-only `get(id)`; resolves with `evt.result`, the event's own field, unlike the other operations |
| `Store.IndexedDBStore.Clear` | lib/IndexedDBStore.js:146-162 | a read-write `clear()`; resolves with no value (`undefined`) |

## Left out

- The IndexedDB engine itself is not modelled. Its inputs are whether `upgradeneeded` fires, which events it delivers, and the database object. This leaves out what `put`, `count`, `get`, `clear` and cursor order do to or read from the stored values, auto-increment keys, transactions, and version comparison. One engine fact is kept: a transaction on a store that does not exist throws `NotFoundError`. A throw inside the `.then` callback rejects the operation's promise.
- An aborted upgrade is not rolled back: if the open fails after `upgradeneeded`, the store created in the upgrade stays in the model.
- The Q library is modelled only as a settle-once state. Each operation returns the state of the promise it gives back. If the open fails, that state is the open's rejection. Otherwise it is the state of the deferred created in the `.then` callback. Q's asynchronous scheduling and thenable adoption are left out.
- `Math.random()` and the `| 0` truncation in `S4` are replaced by the integer word `n` they produce, in [0, 0xFFFF]. `guid` takes its eight words as a parameter, in call order.
- Searching the vendor-prefixed `window` globals is reduced to one question: is an engine present (`factory` non-null)? Calling the constructor without `new`, the `URL` lookups and the module export code are left out.
- The `Blob` wrapping in `all()` is an opaque constructor `Blob(value)`. `cursor.continue()` is the engine's job; the next delivered event stands for its effect.
- `Store.Invoke`: a truthy cursor result that is not a cursor object is read as `undefined`. The `TypeError` that `continue()` would throw on such a value is not modelled, because the engine only delivers a cursor or `null`.
- `Store.IndexedDBStore.All`: the promise settles with a copy of the records at the moment of settlement. JavaScript resolves with the live array, so records pushed after a null cursor would show up too. The engine delivers no events after a null cursor, so the two agree.
- `Utils.Extend`: sources are values. A falsy source is `None`. A truthy one is the set of properties `for..in` lists on it. Inherited enumerable properties are not modelled. Neither is the string indices `for..in` lists on a truthy string source. Passing `obj` itself as a source is not modelled either; in JavaScript it copies the object onto itself, which changes nothing.
- `Utils.Invoke`: the caller's `options.success`/`options.error` are code this model cannot see. Their first settlement of the deferred is an input, `effect` (`Pending` when they settle nothing). Anything else they do is not modelled: other side effects, a throw, or a change to `options`.
- `Utils.ToPromise`: `options` is a `CallerOptions` object or `null`. A truthy `options` that is not an object, such as `true`, behaves like a `CallerOptions` with both flags false. The model keeps only whether `options.success` and `options.error` are truthy, not the functions themselves.
- `Utils.Extend`: `obj` is always an object. `Utils.extend(undefined, source)` with a truthy source that has a property throws a TypeError at lib/utils.js:32; that path is not modelled.
- `Store.IndexedDBStore.Connect`, `All`, `Save`, `Size`, `Get` and `Clear`: `db` is taken to be the connection that the open's success event carries in `evt.target.result`, which `getDb` resolves with and the `.then` continuation uses. The model does not link the `Value` to the `Database` object.
- Numbers are integers: NaN, negative zero and fractional values are left out of truthiness.
- The exact wording of the TypeError thrown when `options` is undefined is the host's. The model keeps only its name.
- `gulpfile.js` (build tooling) and `test/index.js` (a console demo) are not part of this model. `test/tests.js` is evidence only. Its `get("Test")` assertion is not encoded: the store's keys are auto-incremented, and `get` reads `evt.result`.

## Findings

| source | as written | input that shows it | evidently intended | confidence | as-written member | corrected member |
|---|---|---|---|---|---|---|
| lib/IndexedDBStore.js:138-140 | `get`'s success handler resolves with `evt.result` | a success event whose `target.result` is the found record `"Test"`; an IndexedDB success event has no `result` property of its own, so `evt.result` is `undefined` | resolve with `evt.target.result`, as `getDb` and `size` do | not executed; high: an IndexedDB success event is a plain `Event`, and the request's `result` lives only on `evt.target` | `Store.GetMissesFoundRecord` (about `Store.GetOutcome`, the result `Store.IndexedDBStore.Get` states) | `Store.IntendedGetFindsRecord` (about `Store.IntendedGetOutcome`) |

`Store.IndexedDBStore.Get` keeps the as-written behaviour, because it models the
code. The corrected outcome is stated and proved beside it.
