/**
 * `deferred(f)` of lib/deferred.js: a thenable that runs `f` on its first
 * `then` and keeps the resulting promise, so that `f` runs at most once and
 * every `then` sees the same settlement.
 *
 * Promise scheduling is sequential here: a promise is represented by the way
 * it eventually settles. `f` is code the deferred cannot see, so what it does
 * when a `then` would invoke it is a parameter of that `then`.
 */
module DeferredValue {
  import opened Wrappers

  /** How a promise settles. */
  datatype Settled<T, E> = Fulfilled(value: T) | Rejected(reason: E)

  /** What one invocation of the producer `f` does. */
  datatype Produced<T, E> =
    | Returns(value: T)
    | ReturnsPromise(settles: Settled<T, E>)
    | Throws(error: E)

  /**
   * How `new Promise(resolve => resolve(f()))` settles: a plain value
   * fulfils it, a returned promise is adopted (unwrapped), and an exception
   * thrown by `f` in the executor rejects it.
   */
  function Settle<T, E>(p: Produced<T, E>): (s: Settled<T, E>)
    ensures s.Fulfilled? <==> p.Returns? || (p.ReturnsPromise? && p.settles.Fulfilled?)
    ensures p.Returns? ==> s.value == p.value
    ensures p.ReturnsPromise? ==> s == p.settles
    ensures p.Throws? ==> s.Rejected? && s.reason == p.error
  {
    match p
    case Returns(v) => Fulfilled(v)
    case ReturnsPromise(inner) => inner
    case Throws(err) => Rejected(err)
  }

  /** The object `deferred(f)` returns, with its captured variable `promise`. */
  class Deferred<T, E> {
    /** The captured `promise`: None until the first `then`. */
    var promise: Option<Settled<T, E>>
    /** How many times `f` has been invoked (not part of the source's state). */
    ghost var invocations: nat

    /** `f` has run exactly when the promise exists, and at most once. */
    ghost predicate Valid()
      reads this
    {
      (promise.None? <==> invocations == 0) && invocations <= 1
    }

    /** `deferred(f)`: nothing runs yet. */
    constructor ()
      ensures Valid()
      ensures promise.None? && invocations == 0
    {
      promise := None;
      invocations := 0;
    }

    /**
     * `then(onfulfilled, onrejected)`: `promise ||= new Promise(...)`, then
     * the stored promise's settlement, which is what the callbacks receive.
     * `produce` is what `f` would do if this call invoked it.
     */
    method Then(produce: Produced<T, E>) returns (s: Settled<T, E>)
      requires Valid()
      modifies this
      ensures Valid()
      ensures invocations == 1
      ensures old(promise).None? ==> promise == Some(Settle(produce))
      ensures old(promise).Some? ==> promise == old(promise) && invocations == old(invocations)
      ensures promise == Some(s)
    {
      if promise.None? {
        promise := Some(Settle(produce));
        invocations := invocations + 1;
      }
      s := promise.value;
    }
  }

  /**
   * Creating a deferred and awaiting it twice: both awaits settle the way
   * the first invocation of `f` did, and `f` ran once.
   */
  method AwaitTwice<T, E>(first: Produced<T, E>, second: Produced<T, E>)
    returns (a: Settled<T, E>, b: Settled<T, E>, ghost before: nat, ghost after: nat)
    ensures before == 0 && after == 1
    ensures a == Settle(first) && b == a
  {
    var d := new Deferred<T, E>();
    before := d.invocations;
    a := d.Then(first);
    b := d.Then(second);
    after := d.invocations;
  }

  /**
   * Awaiting a fresh deferred once per entry of `produced` (entry k being
   * what `f` would do if the k-th `then` invoked it): every await settles as
   * the first invocation did, and `f` ran once, or not at all when nothing
   * awaited.
   */
  method AwaitRepeatedly<T, E>(produced: seq<Produced<T, E>>)
    returns (results: seq<Settled<T, E>>, ghost invoked: nat)
    ensures |results| == |produced|
    ensures forall k :: 0 <= k < |results| ==> results[k] == Settle(produced[0])
    ensures invoked == if produced == [] then 0 else 1
  {
    var d := new Deferred<T, E>();
    results := [];
    var k := 0;
    while k < |produced|
      invariant 0 <= k <= |produced|
      invariant |results| == k
      invariant d.Valid()
      invariant k == 0 <==> d.promise.None?
      invariant k > 0 ==> d.promise == Some(Settle(produced[0]))
      invariant forall j :: 0 <= j < k ==> results[j] == Settle(produced[0])
    {
      var s := d.Then(produced[k]);
      results := results + [s];
      k := k + 1;
    }
    invoked := d.invocations;
  }
}
