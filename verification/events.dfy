/**
 * Node's EventEmitter, reduced to what the library relies on: an ordered list
 * of listeners per event name; `addListener` appends, `emit` calls the listeners
 * of one name in registration order with the emitted argument.
 */
module Events {
  import opened JsValues

  type ListenerTable = map<string, seq<Listener>>

  /** The listeners registered for `name`; a name never used has none. */
  function ListenersOf(table: ListenerTable, name: string): seq<Listener>
  {
    if name in table then table[name] else []
  }

  /** The table after `addListener(name, cb)`. */
  function Added(table: ListenerTable, name: string, cb: Listener): (t: ListenerTable)
    ensures ListenersOf(t, name) == ListenersOf(table, name) + [cb]
    ensures forall other :: other != name ==> ListenersOf(t, other) == ListenersOf(table, other)
  {
    table[name := ListenersOf(table, name) + [cb]]
  }

  /** The calls `emit` makes when the listeners are `ls`: each listener once,
      with the emitted argument, in registration order. */
  function Deliveries(ls: seq<Listener>, arg: Value): (d: seq<Invocation>)
    ensures |d| == |ls|
    ensures forall i :: 0 <= i < |ls| ==> d[i] == Invocation(ls[i], arg)
  {
    if ls == [] then [] else [Invocation(ls[0], arg)] + Deliveries(ls[1..], arg)
  }

  /** Every listener in `ls` is among the calls. */
  lemma DeliveredToEach(ls: seq<Listener>, cb: Listener, arg: Value)
    requires cb in ls
    ensures Invocation(cb, arg) in Deliveries(ls, arg)
  {
  }

  class EventEmitter {
    var listeners: ListenerTable

    constructor ()
      ensures listeners == map[]
    {
      listeners := map[];
    }

    method AddListener(name: string, cb: Listener)
      modifies this
      ensures listeners == Added(old(listeners), name, cb)
    {
      listeners := listeners[name := ListenersOf(listeners, name) + [cb]];
    }

    /** `emit(name, arg)`: calls the listeners of `name` one after the other.
        The listeners themselves are opaque, so the table is left as it was. */
    method Emit(name: string, arg: Value) returns (delivered: seq<Invocation>)
      ensures delivered == Deliveries(ListenersOf(listeners, name), arg)
    {
      var ls := ListenersOf(listeners, name);
      delivered := [];
      var i := 0;
      while i < |ls|
        invariant 0 <= i <= |ls|
        invariant |delivered| == i
        invariant forall k :: 0 <= k < i ==> delivered[k] == Invocation(ls[k], arg)
      {
        delivered := delivered + [Invocation(ls[i], arg)];
        i := i + 1;
      }
    }
  }
}
