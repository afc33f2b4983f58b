# mongo-reaction: the promise and the connection cache, in Dafny

mongo-reaction is a thin, promise-flavoured layer over the MongoDB Node driver.
This project models its two stateful parts:

- **The lightweight promise** (`lib/Promise.js`). It has four listener channels
  on its own EventEmitter ("success", "err", "found", "notFound") and one stored
  catch-up value, `_needsToCatchUp`. `success(cb)` replays that value to a late
  handler when it is truthy. `succeed(data)` overwrites it and emits "success".
  The model is the class `Promises.Promise` over `Events.EventEmitter`. Each method is
  tied to the pure step function `PromiseSpec.Step`. The lemmas of `PromiseSpec` state
  what single calls and whole call sequences do.
- **The name mapping and connection cache** (`lib/MongoReaction.js`). `_mappings` maps a
  logical name to a connection target. `_storedDBs` maps a target to the handle the
  driver returned. `_proxy` resolves the name in one step (`_mappings[n] || n`). It
  reuses a truthy stored handle, or else asks the driver to connect. The connect
  callback stores whatever handle came back. The model is the class
  `MongoReaction.Registry`, tied to the pure functions of `ConnectionSpec`. Those
  functions and their lemmas cover resolution, the reuse-or-connect decision, the
  completion write, and traces of calls.
- **The query wrappers** of `db(name).collection(c)` (find, findOne, findEach, remove,
  findAndRemove, drop, insert, findAndModify, findAndUpdate, update, count) all
  call `_proxy(name, c, callback)`. Their callback applies one rule to the driver's
  `(err, result)`: a truthy `err` is emitted as "err", anything else as "success".
  The emit goes straight to `promise.events`. `findCursor` emits "success" with the
  cursor. `db(n).collection(c).op(args)` is `Registry.Proxy(n, c, op)`. The rule is
  `MongoReaction.Dispatch`, and `MongoReaction.DriverReplied` applies it per operation.

JavaScript values are modelled by `JsValues.Value` and `JsValues.Truthy`, because
truthiness decides both replay and reuse. Callbacks are opaque `Listener`s. A call
the library makes to one of them is returned as an `Invocation(listener, arg)`.
The model is sequential. A connect that `_proxy` requests comes back as a
`ConnectRequest` value. The driver's later answer is passed to
`Registry.CompleteConnect`, and the answer to a query is passed to `DriverReplied`.

The model follows the code, which behaves as follows:
- Resolution never synthesises a default host target or writes a mapping. An
  unmapped name is its own target.
- The cache is keyed by the resolved target, not by the logical name.
- There is no single-flight guard. A second `_proxy` before the first connect
  completes requests another connect (`ConnectionSpec.NoSingleFlight`).
- A failed connect is cached too: the driver's null handle is stored. Getting the
  collection from null then throws (`ProxyStep.Thrown`), so the promise is never
  settled and no "err" is emitted.
- `succeed` has no single-fire guard: a second call re-notifies.
- Replay depends on truthiness, so `succeed(0)` leaves replay off.
- The wrappers never call `succeed`, so results they emit are never replayed.
- No code emits "found" or "notFound".

## Model

| member | source | states |
|---|---|---|
| Events.Deliveries | lib/Promise.js:36 | emit calls each listener of the event exactly once, with the emitted argument, in registration order |
| Events.EventEmitter.Emit | lib/Promise.js:36 | the calls emit makes are exactly Deliveries of the event's listener list, which it leaves unchanged |
| Events.EventEmitter.constructor | lib/Promise.js:8 | a new emitter has no listeners for any event |
| JsValues.Truthy | lib/Promise.js:16 | a value is truthy exactly when it is not undefined, null, false, 0 or "" (the tests at lib/Promise.js:16 and lib/MongoReaction.js:45, :49 and :91) |
| Events.EventEmitter.AddListener | lib/Promise.js:19 | the listener is appended to the end of its event's list; other events' lists unchanged |
| Events.Added | lib/Promise.js:29 | after registering, the event's list is the old list plus the listener and every other event's list is unchanged |
| Events.DeliveredToEach | lib/Promise.js:36 | every registered listener is among the calls an emit makes |
| PromiseSpec.Initial | lib/Promise.js:7-9 | a new promise has no listener on any event and a falsy (undefined) catch-up value |
| Promises.Promise.constructor | lib/Promise.js:7-9 | the promise gets a fresh emitter and starts in the Initial state |
| Promises.Promise.Success | lib/Promise.js:15-22 | returns the promise itself; new state and calls made are those of Step(OnSuccess) on the old state |
| Promises.Promise.Error | lib/Promise.js:28-31 | returns the promise itself; new state is Step(OnError) of the old one and no callback is made |
| Promises.Promise.Succeed | lib/Promise.js:32-38 | returns the promise itself; new state and calls made are those of Step(Succeed) on the old state |
| Promises.Promise.Found | lib/Promise.js:39-42 | returns the promise itself; new state is Step(OnFound) of the old one and no callback is made |
| Promises.Promise.NotFound | lib/Promise.js:43-46 | returns the promise itself; new state is Step(OnNotFound) of the old one and no callback is made |
| PromiseSpec.Step | lib/Promise.js:15-46 | one call on the promise: emits and succeed leave the listeners unchanged, error/found/notFound call nobody, and only succeed sets the catch-up value, to its data |
| PromiseSpec.Run | lib/Promise.js:15-46 | a sequence of calls: one call runs as its Step, and a sequence without succeed keeps the catch-up value |
| PromiseSpec.SuccessReplaysOrQueues | lib/Promise.js:15-22 | catch-up value truthy iff the handler is called at once with it; then the state is unchanged, otherwise the handler is appended to "success", not called, and every other channel is unchanged |
| PromiseSpec.RegistrationTouchesOwnChannelOnly | lib/Promise.js:28-46 | error/found/notFound append to their own channel only, make no call and keep the catch-up value |
| PromiseSpec.SucceedStoresAndNotifies | lib/Promise.js:32-38 | succeed stores data as the catch-up value unconditionally and calls every success listener with it in order |
| PromiseSpec.SucceedTwiceNotifiesTwice | lib/Promise.js:32-38 | two succeeds notify the same listeners twice, and the second value is the one kept |
| PromiseSpec.FalsySucceedDisablesReplay | lib/Promise.js:15-38 | after a falsy succeed a new success handler is queued, not called |
| PromiseSpec.ListenersOnlyGrow | lib/Promise.js:15-46 | over any sequence of calls each channel's old list stays a prefix of its new list |
| PromiseSpec.QueuedListenerHearsEverySucceed | lib/Promise.js:32-38 | a registered success listener is called with the data of every later succeed |
| PromiseSpec.LateSubscribersReplayed | lib/Promise.js:15-22 | while the catch-up value is truthy and no succeed intervenes, every new success handler is called with it and none is queued |
| PromiseSpec.DirectEmitsLeaveStateAlone | lib/MongoReaction.js:90-96 | the wrappers' direct emits change neither the listeners nor the catch-up value |
| PromiseSpec.LateHandlerMissesDirectEmit | lib/MongoReaction.js:90-96 | on a fresh promise, a success handler registered after the wrappers' emits is queued and gets none of them |
| PromiseSpec.RunAppend | lib/Promise.js:15-46 | running two call sequences one after the other equals running their concatenation |
| Promises.ChainedUse | lib/Promise.js:15-38 | chained calls: succeed(0) notifies the registered handler, but a handler attached after it is queued and not called with 0; a later truthy succeed reaches that handler and replays to a handler attached after it |
| ConnectionSpec.Resolve | lib/MongoReaction.js:45 | the target is the name itself or its direct mapping, and a target other than the name is never "" |
| ConnectionSpec.ResolutionIsOneLevel | lib/MongoReaction.js:45 | a truthy mapping is the target as is and is not looked up again |
| ConnectionSpec.StoredUnder | lib/MongoReaction.js:47 | the stored handle for a target, and a falsy value when nothing is stored |
| ConnectionSpec.MapStep | lib/MongoReaction.js:75 | the name's mapping becomes the path, every other name keeps its mapping (or its absence), and the cache is unchanged |
| ConnectionSpec.Complete | lib/MongoReaction.js:57 | the target's stored handle becomes the driver's answer, every other target keeps its entry, and the mappings are unchanged |
| ConnectionSpec.RunCalls | lib/MongoReaction.js:28-76 | a run of `_proxy` calls alone changes neither table and takes one decision per call |
| ConnectionSpec.Decide | lib/MongoReaction.js:45-63 | the decision's target is the resolved name; it reuses exactly when a truthy handle is stored under that target, and then reuses that handle |
| ConnectionSpec.MapThenResolve | lib/MongoReaction.js:74-76 | after map(n, p), n resolves to p (to n when p is ""), other names resolve as before and the cache is untouched |
| ConnectionSpec.SharedCacheEntry | lib/MongoReaction.js:45-57 | names resolving to one target get the same decision, and a handle stored for one is reused for the other |
| ConnectionSpec.FalsyHandleReconnects | lib/MongoReaction.js:47-57 | after a falsy handle is stored the next call for that target connects again |
| ConnectionSpec.NoSingleFlight | lib/MongoReaction.js:47-61 | with no truthy handle stored and no completion for the target, connects requested equal proxy calls resolving to it |
| ConnectionSpec.ReuseAfterCompletion | lib/MongoReaction.js:47-61 | after a truthy handle is stored, every later call resolving to that target reuses it and none connects |
| MongoReaction.CollectionOf | lib/MongoReaction.js:38 | getting a collection succeeds exactly on an object handle and names that handle and collection |
| MongoReaction.Connected | lib/MongoReaction.js:37-43 | the wrapper's callback is started with handle.collection(name) and the promise exactly when the handle is an object, else the call throws |
| MongoReaction.Registry.constructor | lib/MongoReaction.js:9-19 | both tables start empty |
| MongoReaction.Registry.Map | lib/MongoReaction.js:74-76 | the mapping of the name is overwritten with the path; the cache is unchanged |
| MongoReaction.Registry.Proxy | lib/MongoReaction.js:28-67 | returns a fresh, empty promise; a reuse decision starts the callback on the stored handle and a connect decision requests one connect to the resolved target; no table changes |
| MongoReaction.Registry.CompleteConnect | lib/MongoReaction.js:55-61 | stores the returned handle under the target whatever err is, then continues as for a reused handle |
| MongoReaction.Dispatch | lib/MongoReaction.js:90-96 | exactly one emit: "err" with err when err is truthy, otherwise "success" with the result; the promise is not changed |
| MongoReaction.DriverReplied | lib/MongoReaction.js:86-215 | findCursor emits success with the cursor; every other wrapper applies Dispatch |
| MongoReaction.TwoCallsBeforeCompletion | lib/MongoReaction.js:47-61 | two calls before completion each request a connect to the same target, with separate promises |
| MongoReaction.ConnectThenReuse | lib/MongoReaction.js:45-59 | after a connect completes with a handle, a second name resolving to the same target reuses it; mappings unchanged |

## Left out

- The MongoDB driver itself (`MongoClient.connect`, `db.collection`, and every query
  method) is not modelled. A connect's `(err, db)` and a query's `(err, result)` are
  inputs to `Registry.CompleteConnect` and `DriverReplied`. Getting a collection only
  records the handle and the collection name.
- Query and update documents are opaque `Value`s. The `$set` wrapping that
  findAndUpdate performs has no meaning here.
- Listener bodies are not run. A listener that registers listeners or emits while
  being called is not modelled.
- Asynchrony is not modelled, only the order of calls. A cached handle starts the
  operation inside `_proxy`, so `findCursor` emits success before the caller can
  attach handlers. That is visible only as the order in which calls are made.
- `_proxy` uses a private EventEmitter to pass "connected" and "collectionGot". It
  has exactly one listener per event, so it is modelled as direct sequencing in
  `Connected`.
- Only the uses of EventEmitter that the code makes are modelled. Its "newListener"
  event, its listener limit and the return value of `emit` are left out. Emitting
  "error" with no listener would throw, but the code emits "err", so this never
  arises.
- Numbers are modelled as integers (NaN and fractions are left out). Only their
  truthiness matters here.
- Mapping targets are modelled as strings, so a falsy target is "".
  `map(name, undefined)` and other non-string targets are not modelled.
- Both tables are plain JavaScript objects. A lookup of a key such as `toString`
  would find an `Object.prototype` member. The model treats the tables as maps
  holding only their own keys.
- The module-level singleton object is modelled as a `Registry` instance.
- Registry.Proxy: a `Thrown` step stands for `_proxy` throwing a TypeError to its caller
  before `return promise`. That happens when the stored handle is truthy but not an
  object. The caller then gets no promise, so the fresh promise returned beside
  `Thrown` is not observable.
- Registry.Proxy: nothing of the wrapper's callback runs until its `OpCall` is passed
  to `DriverReplied`, because the callback calls the driver, which is not modelled.
- Registry.CompleteConnect: when the driver hands back a non-object, the TypeError
  thrown from the connect callback is reported as `Thrown`. Its propagation into the
  driver is not modelled.
