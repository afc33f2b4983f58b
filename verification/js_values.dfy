/**
 * The slice of JavaScript's value model that the library's behaviour depends on:
 * which values are truthy (every `if (x)` and `a || b` in the code), and
 * opaque callbacks that are called with one argument.
 */
module JsValues {

  /** A JavaScript value. Numbers are modelled as integers (NaN is not modelled);
      arrays, cursors, driver handles and other objects are `Obj`, told apart by identity. */
  datatype Value =
    | Undefined
    | Null
    | Bool(b: bool)
    | Num(n: int)
    | Str(s: string)
    | Obj(ref: nat)

  /** JavaScript truthiness: `undefined`, `null`, `false`, `0` and `""` are falsy;
      every object is truthy, even an empty array. */
  predicate Truthy(v: Value)
    ensures Truthy(v) <==> v !in {Undefined, Null, Bool(false), Num(0), Str("")}
  {
    match v
    case Undefined => false
    case Null => false
    case Bool(b) => b
    case Num(n) => n != 0
    case Str(s) => s != ""
    case Obj(_) => true
  }

  /** A callback the caller registered; its body is not part of this model. */
  datatype Listener = Listener(id: nat)

  /** One call `listener(arg)` made by the library. */
  datatype Invocation = Invocation(listener: Listener, arg: Value)
}
