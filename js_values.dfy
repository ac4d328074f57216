/**
 * The JavaScript values that cross the IPC bridge, as far as the bridge's
 * own code inspects them: whether a value is `undefined`, whether it is
 * truthy, and whether it is a promise that has to be awaited.
 */
module JsValues {

  datatype Option<+T> = None | Some(value: T)

  /** A JavaScript value. A promise is modelled by how it settles. */
  datatype Value =
    | Undefined
    | Null
    | Bool(b: bool)
    | Num(n: int)
    | Str(s: string)
    | Arr(items: seq<Value>)
    | Obj(fields: map<string, Value>)
    | Fulfilled(result: Value)     // a promise that resolves with `result`
    | Rejected(reason: Value)      // a promise that rejects with `reason`

  predicate IsPromise(v: Value) {
    v.Fulfilled? || v.Rejected?
  }

  /** What an exception carries: a thrown JavaScript value, the failure of
      looking up a procedure path that the router does not have, or the
      TypeError of reading a property of `undefined` or `null`. */
  datatype Exception = Thrown(value: Value) | NoSuchProcedure(path: string) | TypeError

  /** The completion of an evaluation: a normal result or an exception. */
  datatype Completion<+T> = Normal(value: T) | Throw(exception: Exception)

  /** `await v`: a promise is unwrapped until a non-promise value is reached
      (a promise resolved with another promise adopts its state); a rejected
      promise throws its reason; any other value is returned unchanged. */
  function Await(v: Value): (r: Completion<Value>)
    ensures r.Normal? ==> !IsPromise(r.value)
    ensures !IsPromise(v) ==> r == Normal(v)
    ensures v.Rejected? ==> r == Throw(Thrown(v.reason))
    ensures v.Fulfilled? && !IsPromise(v.result) ==> r == Normal(v.result)
    ensures v.Fulfilled? ==> r == Await(v.result)
  {
    match v
    case Fulfilled(x) => Await(x)
    case Rejected(e) => Throw(Thrown(e))
    case _ => Normal(v)
  }

  /** The values JavaScript treats as false in a condition (NaN, -0 and 0n
      have no counterpart in this value model). */
  const FALSY: set<Value> := {Undefined, Null, Bool(false), Num(0), Str("")}

  /** JavaScript truthiness, written by cases on the value. */
  predicate Truthy(v: Value)
    ensures Truthy(v) <==> v !in FALSY
  {
    match v
    case Undefined => false
    case Null => false
    case Bool(b) => b
    case Num(n) => n != 0
    case Str(s) => s != ""
    case _ => true
  }
}
