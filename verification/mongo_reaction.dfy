/**
 * lib/MongoReaction.js: the module-level object with its two tables, `map`,
 * `_proxy`, the connect callback, and the rule every query wrapper applies to the
 * driver's `(err, result)` callback. The driver (`MongoClient.connect`,
 * `db.collection`, the query methods) is outside the model: a connect `_proxy`
 * requests is returned as a `ConnectRequest`, and its completion, like the outcome
 * of a query, is an input to the method that handles it.
 */
module MongoReaction {
  import opened JsValues
  import opened Events
  import opened PromiseSpec
  import opened Promises
  import opened ConnectionSpec

  /** The query wrappers of `db(name).collection(c)`, with their (opaque) arguments. */
  datatype Operation =
    | Find(query: Value)
    | FindOne(query: Value)
    | FindEach(query: Value)
    | FindCursor(query: Value)
    | Remove(query: Value)
    | FindAndRemove(query: Value)
    | Drop
    | Insert(doc: Value)
    | FindAndModify(criteria: Value)
    | FindAndUpdate(criteria: Value, updated: Value)
    | Update(criteria: Value, updated: Value, options: Value)
    | Count(query: Value)

  /** `db.collection(name)` on a driver handle. */
  datatype Collection = Collection(db: nat, name: string)

  /** `db.collection(name)` succeeds on an object; on anything else (the null a failed
      connect hands back) it throws a TypeError. */
  datatype CollectionResult = Got(collection: Collection) | TypeError

  function CollectionOf(db: Value, name: string): (r: CollectionResult)
    ensures r.Got? <==> db.Obj?
    ensures r.Got? ==> r.collection == Collection(db.ref, name)
  {
    if db.Obj? then Got(Collection(db.ref, name)) else TypeError
  }

  /** `callback(collection, promise)`: the wrapper's operation started on the collection. */
  datatype OpCall = OpCall(op: Operation, collection: Collection, promise: Promise)

  /** A connect the driver was asked for, with what its callback closes over. */
  datatype ConnectRequest = ConnectRequest(target: string, collectionName: string, op: Operation, promise: Promise)

  /** What a `_proxy` call, or a connect completion, leads to. */
  datatype ProxyStep =
    | Started(call: OpCall)
    | Thrown
    | ConnectRequested(request: ConnectRequest)

  /** The "connected" then "collectionGot" listeners of `_proxy`: get the collection
      from the handle and hand it, with the promise, to the wrapper's callback. */
  function Connected(db: Value, collectionName: string, op: Operation, promise: Promise): (s: ProxyStep)
    ensures s.Started? <==> db.Obj?
    ensures s.Started? ==> s.call == OpCall(op, Collection(db.ref, collectionName), promise)
    ensures !s.ConnectRequested?
  {
    match CollectionOf(db, collectionName)
    case Got(c) => Started(OpCall(op, c, promise))
    case TypeError => Thrown
  }

  class Registry {
    var mappings: map<string, string>
    var storedDBs: map<string, Value>

    function State(): RegistryState
      reads this
    {
      RegistryState(mappings, storedDBs)
    }

    constructor ()
      ensures mappings == map[] && storedDBs == map[]
    {
      mappings := map[];
      storedDBs := map[];
    }

    method Map(dbName: string, mongoPath: string)
      modifies this
      ensures State() == MapStep(old(State()), dbName, mongoPath)
    {
      mappings := mappings[dbName := mongoPath];
    }

    /** `_proxy(dbName, collectionName, callback)`: reads the tables and changes neither. */
    method Proxy(dbName: string, collectionName: string, op: Operation) returns (promise: Promise, step: ProxyStep)
      ensures fresh(promise) && fresh(promise.events) && promise.State() == Initial()
      ensures
        match Decide(State(), dbName)
        case Reuse(_, db) => step == Connected(db, collectionName, op, promise)
        case Connect(target) => step == ConnectRequested(ConnectRequest(target, collectionName, op, promise))
    {
      promise := new Promise();
      var target := Resolve(mappings, dbName);
      var storedDB := StoredUnder(storedDBs, target);
      if Truthy(storedDB) {
        step := Connected(storedDB, collectionName, op, promise);
      } else {
        step := ConnectRequested(ConnectRequest(target, collectionName, op, promise));
      }
    }

    /** The connect callback: stores whatever the driver returned, even on error, then
        goes on as if the handle had been found in the cache. */
    method CompleteConnect(request: ConnectRequest, err: Value, db: Value) returns (step: ProxyStep)
      modifies this
      ensures State() == Complete(old(State()), request.target, db)
      ensures step == Connected(db, request.collectionName, request.op, request.promise)
    {
      storedDBs := storedDBs[request.target := db];
      step := Connected(db, request.collectionName, request.op, request.promise);
    }
  }

  /** The rule every callback-style wrapper applies to the driver's `(err, result)`:
      exactly one emission on the promise's emitter, "err" with `err` when it is truthy,
      "success" with the result otherwise. It emits directly and never calls `succeed`,
      so the promise (catch-up value included) is unchanged. */
  method Dispatch(promise: Promise, err: Value, result: Value) returns (delivered: seq<Invocation>)
    ensures Truthy(err) ==> delivered == Deliveries(ListenersOf(promise.events.listeners, ErrEvent), err)
    ensures !Truthy(err) ==> delivered == Deliveries(ListenersOf(promise.events.listeners, SuccessEvent), result)
  {
    if Truthy(err) {
      delivered := promise.events.Emit(ErrEvent, err);
    } else {
      delivered := promise.events.Emit(SuccessEvent, result);
    }
  }

  /** The driver answers a started operation with `(err, result)`. `findCursor` has no
      callback: it emits success with the cursor `find` returned, here `result`. */
  method DriverReplied(call: OpCall, err: Value, result: Value) returns (delivered: seq<Invocation>)
    ensures call.op.FindCursor? ==>
      delivered == Deliveries(ListenersOf(call.promise.events.listeners, SuccessEvent), result)
    ensures !call.op.FindCursor? && Truthy(err) ==>
      delivered == Deliveries(ListenersOf(call.promise.events.listeners, ErrEvent), err)
    ensures !call.op.FindCursor? && !Truthy(err) ==>
      delivered == Deliveries(ListenersOf(call.promise.events.listeners, SuccessEvent), result)
  {
    if call.op.FindCursor? {
      delivered := call.promise.events.Emit(SuccessEvent, result);
    } else {
      delivered := Dispatch(call.promise, err, result);
    }
  }

  /** Two `_proxy` calls for a name whose target has no handle yet, made before the
      first connect completes, both ask the driver to connect to the same target. */
  method TwoCallsBeforeCompletion(r: Registry, name: string, coll: string, op: Operation)
    returns (s1: ProxyStep, s2: ProxyStep)
    requires !Truthy(StoredUnder(r.storedDBs, Resolve(r.mappings, name)))
    ensures s1.ConnectRequested? && s2.ConnectRequested?
    ensures s1.request.target == s2.request.target == Resolve(r.mappings, name)
    ensures s1.request.promise != s2.request.promise
  {
    var p1, p2;
    p1, s1 := r.Proxy(name, coll, op);
    p2, s2 := r.Proxy(name, coll, op);
  }

  /** A connect completes with a handle; the next call for any name resolving to the
      same target reuses it and starts the operation on `handle.collection(coll)`. */
  method ConnectThenReuse(r: Registry, a: string, b: string, coll: string, op: Operation, err: Value, handle: nat)
    returns (first: ProxyStep, completed: ProxyStep, second: ProxyStep)
    requires !Truthy(StoredUnder(r.storedDBs, Resolve(r.mappings, a)))
    requires Resolve(r.mappings, a) == Resolve(r.mappings, b)
    modifies r
    ensures first.ConnectRequested?
    ensures completed.Started? && completed.call.collection == Collection(handle, coll)
    ensures second.Started? && second.call.collection == Collection(handle, coll)
    ensures r.mappings == old(r.mappings)
  {
    var p1, p2;
    p1, first := r.Proxy(a, coll, op);
    completed := r.CompleteConnect(first.request, err, Obj(handle));
    p2, second := r.Proxy(b, coll, op);
  }
}
