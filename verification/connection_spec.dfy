/**
 * The two tables of lib/MongoReaction.js as a value: `_mappings` (logical name to
 * connection target) and `_storedDBs` (connection target to the handle the driver
 * returned), with the resolution rule, the reuse-or-connect decision of `_proxy`
 * and the write made when a connect completes.
 */
module ConnectionSpec {
  import opened JsValues

  datatype RegistryState = RegistryState(mappings: map<string, string>, stored: map<string, Value>)

  /** `_mappings[name] || name`: one lookup, never repeated on the mapped value. */
  function Resolve(mappings: map<string, string>, name: string): (target: string)
    ensures target == name || (name in mappings && target == mappings[name])
    ensures target != name ==> target != ""
  {
    if name in mappings && mappings[name] != "" then mappings[name] else name
  }

  /** `_storedDBs[target]`: undefined when nothing was stored. */
  function StoredUnder(stored: map<string, Value>, target: string): (db: Value)
    ensures target in stored ==> db == stored[target]
    ensures target !in stored ==> !Truthy(db)
  {
    if target in stored then stored[target] else Undefined
  }

  /** What `_proxy` does about the connection: reuse a truthy stored handle, or ask the
      driver for a new connection. */
  datatype Decision = Reuse(target: string, handle: Value) | Connect(target: string)

  function Decide(st: RegistryState, name: string): (d: Decision)
    ensures d.target == Resolve(st.mappings, name)
    ensures d.Reuse? <==> Truthy(StoredUnder(st.stored, d.target))
    ensures d.Reuse? ==> d.target in st.stored && d.handle == st.stored[d.target]
  {
    var target := Resolve(st.mappings, name);
    var db := StoredUnder(st.stored, target);
    if Truthy(db) then Reuse(target, db) else Connect(target)
  }

  /** `map(name, path)`. */
  function MapStep(st: RegistryState, name: string, path: string): (r: RegistryState)
    ensures name in r.mappings && r.mappings[name] == path
    ensures forall other :: other != name ==> (other in r.mappings <==> other in st.mappings)
    ensures forall other :: other != name && other in st.mappings ==> r.mappings[other] == st.mappings[other]
    ensures r.stored == st.stored
  {
    st.(mappings := st.mappings[name := path])
  }

  /** The connect callback: whatever the driver returned is stored under the target. */
  function Complete(st: RegistryState, target: string, db: Value): (r: RegistryState)
    ensures StoredUnder(r.stored, target) == db
    ensures forall other :: other != target ==> StoredUnder(r.stored, other) == StoredUnder(st.stored, other)
    ensures r.mappings == st.mappings
  {
    st.(stored := st.stored[target := db])
  }

  /** `map` overwrites: afterwards the name resolves to the new path (or to itself when
      the path is the falsy ""), no other name's resolution moves and the cache is untouched. */
  lemma MapThenResolve(st: RegistryState, name: string, path: string)
    ensures Resolve(MapStep(st, name, path).mappings, name) == if path != "" then path else name
    ensures forall other :: other != name ==>
      Resolve(MapStep(st, name, path).mappings, other) == Resolve(st.mappings, other)
    ensures MapStep(st, name, path).stored == st.stored
  {
  }

  /** Resolution is one level deep: a truthy mapping is the target as it stands, even
      when it is itself a mapped name; "a" mapped to "b" and "b" to "c" reaches "b". */
  lemma ResolutionIsOneLevel(mappings: map<string, string>, name: string)
    requires name in mappings && mappings[name] != ""
    ensures Resolve(mappings, name) == mappings[name]
    ensures Resolve(map["a" := "b", "b" := "c"], "a") == "b"
  {
  }

  /** Names that resolve to the same target share one cache entry: `_proxy` decides the
      same for both, and a connect completed for one is reused by the other. */
  lemma SharedCacheEntry(st: RegistryState, a: string, b: string, db: Value)
    requires Resolve(st.mappings, a) == Resolve(st.mappings, b)
    ensures Decide(st, a) == Decide(st, b)
    ensures
      var st' := Complete(st, Resolve(st.mappings, a), db);
      Truthy(db) ==> Decide(st', b) == Reuse(Resolve(st.mappings, b), db)
  {
  }

  /** A completion that stored a falsy handle (a failed connect stores the driver's null)
      leaves the target absent for the next call, which connects again. */
  lemma FalsyHandleReconnects(st: RegistryState, name: string, db: Value)
    requires !Truthy(db)
    ensures Decide(Complete(st, Resolve(st.mappings, name), db), name) == Connect(Resolve(st.mappings, name))
  {
  }

  /** The calls that reach the two tables, in the order they happen: `map`, a `_proxy`
      call (any query wrapper), and the completion of a connect the driver was asked for. */
  datatype Call = MapCall(name: string, path: string) | ProxyCall(name: string) | ConnectDone(target: string, db: Value)

  /** The tables after the calls, and the decision each `_proxy` call took, in order. */
  datatype Trace = Trace(state: RegistryState, decisions: seq<Decision>)

  /** `_proxy` only reads the tables: a run of proxy calls alone changes neither table
      and takes one decision per call. */
  function RunCalls(st: RegistryState, calls: seq<Call>): (tr: Trace)
    ensures (forall i :: 0 <= i < |calls| ==> calls[i].ProxyCall?) ==> tr.state == st && |tr.decisions| == |calls|
    decreases |calls|
  {
    if calls == [] then Trace(st, [])
    else
      match calls[0]
      case MapCall(n, p) => RunCalls(MapStep(st, n, p), calls[1..])
      case ConnectDone(t, db) => RunCalls(Complete(st, t, db), calls[1..])
      case ProxyCall(n) =>
        var rest := RunCalls(st, calls[1..]);
        Trace(rest.state, [Decide(st, n)] + rest.decisions)
  }

  /** How many of the decisions asked for a connection to `target`. */
  function ConnectsTo(ds: seq<Decision>, target: string): nat
  {
    if ds == [] then 0 else (if ds[0] == Connect(target) then 1 else 0) + ConnectsTo(ds[1..], target)
  }

  /** How many `_proxy` calls name something that resolves to `target`. */
  function ProxiesTo(mappings: map<string, string>, calls: seq<Call>, target: string): nat
  {
    if calls == [] then 0
    else (if calls[0].ProxyCall? && Resolve(mappings, calls[0].name) == target then 1 else 0)
         + ProxiesTo(mappings, calls[1..], target)
  }

  /** There is no in-flight marker: while no connect to `target` has completed with a
      truthy handle, every `_proxy` call resolving to it asks for its own connection. */
  lemma {:induction false} NoSingleFlight(st: RegistryState, calls: seq<Call>, target: string)
    requires !Truthy(StoredUnder(st.stored, target))
    requires forall i :: 0 <= i < |calls| ==> !calls[i].MapCall?
    requires forall i :: 0 <= i < |calls| ==> calls[i].ConnectDone? ==> calls[i].target != target
    ensures ConnectsTo(RunCalls(st, calls).decisions, target) == ProxiesTo(st.mappings, calls, target)
    ensures RunCalls(st, calls).state.mappings == st.mappings
    decreases |calls|
  {
    if calls != [] {
      assert forall i :: 0 <= i < |calls[1..]| ==> calls[1..][i] == calls[i + 1];
      match calls[0]
      case ConnectDone(t, db) =>
        var st' := Complete(st, t, db);
        assert StoredUnder(st'.stored, target) == StoredUnder(st.stored, target);
        NoSingleFlight(st', calls[1..], target);
      case ProxyCall(n) =>
        NoSingleFlight(st, calls[1..], target);
    }
  }

  /** Once a connect to `target` completed with a truthy handle, every later `_proxy`
      call resolving to it reuses that handle and none asks for a connection, until
      another completion for the same target overwrites it. */
  lemma {:induction false} ReuseAfterCompletion(st: RegistryState, calls: seq<Call>, target: string, db: Value)
    requires Truthy(db)
    requires forall i :: 0 <= i < |calls| ==> !calls[i].MapCall?
    requires forall i :: 0 <= i < |calls| ==> calls[i].ConnectDone? ==> calls[i].target != target
    ensures
      var tr := RunCalls(Complete(st, target, db), calls);
      && ConnectsTo(tr.decisions, target) == 0
      && forall j :: 0 <= j < |tr.decisions| && tr.decisions[j].target == target ==> tr.decisions[j] == Reuse(target, db)
    decreases |calls|
  {
    var st1 := Complete(st, target, db);
    if calls != [] {
      assert forall i :: 0 <= i < |calls[1..]| ==> calls[1..][i] == calls[i + 1];
      match calls[0]
      case ConnectDone(t, h) =>
        var st2 := Complete(st1, t, h);
        assert st2 == Complete(Complete(st, t, h), target, db);
        ReuseAfterCompletion(Complete(st, t, h), calls[1..], target, db);
      case ProxyCall(n) =>
        ReuseAfterCompletion(st, calls[1..], target, db);
        var rest := RunCalls(st1, calls[1..]);
        assert RunCalls(st1, calls).decisions == [Decide(st1, n)] + rest.decisions;
        forall j | 0 <= j < |RunCalls(st1, calls).decisions| && RunCalls(st1, calls).decisions[j].target == target
          ensures RunCalls(st1, calls).decisions[j] == Reuse(target, db)
        {
          if j > 0 {
            assert RunCalls(st1, calls).decisions[j] == rest.decisions[j - 1];
          }
        }
    }
  }
}
