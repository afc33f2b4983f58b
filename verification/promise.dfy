/**
 * lib/Promise.js: the lightweight promise. Its listeners live in its own
 * EventEmitter (`events`, public: the query wrappers emit on it directly) and
 * `catchUp` is the `_needsToCatchUp` property, absent (undefined) until `succeed`.
 * Every method returns the promise itself, for chaining, and the callbacks it made.
 */
module Promises {
  import opened JsValues
  import opened Events
  import opened PromiseSpec

  class Promise {
    const events: EventEmitter
    var catchUp: Value

    function State(): PromiseState
      reads this, events
    {
      PromiseState(events.listeners, catchUp)
    }

    constructor ()
      ensures fresh(events)
      ensures State() == Initial()
    {
      events := new EventEmitter();
      catchUp := Undefined;
    }

    method Success(cb: Listener) returns (self: Promise, delivered: seq<Invocation>)
      modifies events
      ensures self == this
      ensures After(State(), delivered) == Step(old(State()), OnSuccess(cb))
    {
      if Truthy(catchUp) {
        delivered := [Invocation(cb, catchUp)];
      } else {
        events.AddListener(SuccessEvent, cb);
        delivered := [];
      }
      self := this;
    }

    method Error(cb: Listener) returns (self: Promise)
      modifies events
      ensures self == this
      ensures After(State(), []) == Step(old(State()), OnError(cb))
    {
      events.AddListener(ErrEvent, cb);
      self := this;
    }

    method Succeed(data: Value) returns (self: Promise, delivered: seq<Invocation>)
      modifies this
      ensures self == this
      ensures After(State(), delivered) == Step(old(State()), PromiseSpec.Succeed(data))
    {
      catchUp := data;
      delivered := events.Emit(SuccessEvent, data);
      self := this;
    }

    method Found(cb: Listener) returns (self: Promise)
      modifies events
      ensures self == this
      ensures After(State(), []) == Step(old(State()), OnFound(cb))
    {
      events.AddListener(FoundEvent, cb);
      self := this;
    }

    method NotFound(cb: Listener) returns (self: Promise)
      modifies events
      ensures self == this
      ensures After(State(), []) == Step(old(State()), OnNotFound(cb))
    {
      events.AddListener(NotFoundEvent, cb);
      self := this;
    }
  }

  /** A caller's view: handlers attached with chained calls on a fresh promise, then a
      falsy and a truthy `succeed`. `d`, attached after `succeed(0)`, is queued rather
      than replayed with 0; only the truthy `succeed` turns replay on, for `c`. */
  method ChainedUse(a: Listener, b: Listener, c: Listener, d: Listener) returns (p: Promise, log: seq<Invocation>)
    ensures fresh(p)
    ensures log == [Invocation(a, Num(0)), Invocation(a, Str("ok")), Invocation(d, Str("ok")), Invocation(c, Str("ok"))]
    ensures a != d ==> Invocation(d, Num(0)) !in log
    ensures ListenersOf(p.events.listeners, SuccessEvent) == [a, d]
    ensures ListenersOf(p.events.listeners, ErrEvent) == [b]
    ensures p.catchUp == Str("ok")
  {
    p := new Promise();
    var q, d1, d2, d3, d4, d5;
    q, d1 := p.Success(a);
    q := q.Error(b);
    q, d2 := q.Succeed(Num(0));
    q, d3 := q.Success(d);
    q, d4 := q.Succeed(Str("ok"));
    q, d5 := q.Success(c);
    log := d1 + d2 + d3 + d4 + d5;
  }
}
