/** The host's promise protocol, reduced to settled outcomes: awaiting a
    value, `then` with optional callbacks, `catch` and `finally`.  Timing
    and microtask order are not modelled; only what a chain settles to.
 */
module Promises {
  import opened Values

  /** Values the host treats as thenables: awaiting them waits for them. */
  predicate Thenable(v: Value)
  {
    v.Promise? || v.ResPromise?
  }

  /** `await v`: a thenable is followed to what it settles to (a promise
      fulfilled with a thenable adopts it); any other value is itself.  A
      `ResultPromise` is a thenable whose `then` forwards to its promise. */
  function Await(v: Value): (r: Outcome<Value>)
    ensures !Thenable(v) ==> r == Fulfilled(v)
    ensures r.Fulfilled? ==> !Thenable(r.value)
    ensures v.Promise? && v.outcome.Rejected? ==> r == Rejected(v.outcome.reason)
    ensures v.Promise? && v.outcome.Fulfilled? ==> r == Await(v.outcome.value)
    ensures v.Promise? && v.outcome.Fulfilled? && !Thenable(v.outcome.value) ==> r == Fulfilled(v.outcome.value)
    ensures v.ResPromise? ==> r == MapOutcome(v.rp.Settle(), (x: Res) => Res(x))
    decreases v
  {
    match v
    case Promise(o) =>
      (match o
       case Fulfilled(x) => Await(x)
       case Rejected(e) => Rejected(e))
    case ResPromise(rp) => MapOutcome(rp.Settle(), (x: Res) => Res(x))
    case _ => Fulfilled(v)
  }

  /** `promise.then(onFulfilled, onRejected)` on a promise settled to `o`
      (its fulfilled value seen as a host value through `inject`).  A
      missing callback passes the outcome on; what a callback returns is
      adopted, what it throws rejects the new promise. */
  function Then<A>(o: Outcome<A>, inject: A -> Value, onFulfilled: Option<Callback>,
                   onRejected: Option<Callback>): (r: Outcome<Value>)
    ensures o.Fulfilled? && onFulfilled.None? ==> r == Fulfilled(inject(o.value))
    ensures o.Rejected? && onRejected.None? ==> r == Rejected(o.reason)
    ensures o.Fulfilled? && onFulfilled.Some? ==> r == Bind(onFulfilled.value(inject(o.value)), Await)
    ensures o.Rejected? && onRejected.Some? ==> r == Bind(onRejected.value(o.reason), Await)
  {
    match o
    case Fulfilled(a) =>
      if onFulfilled.Some? then Bind(onFulfilled.value(inject(a)), Await) else Fulfilled(inject(a))
    case Rejected(e) =>
      if onRejected.Some? then Bind(onRejected.value(e), Await) else Rejected(e)
  }

  /** `promise.then(undefined, onRejected)`. */
  function Catch<A>(o: Outcome<A>, inject: A -> Value, onRejected: Option<Callback>): (r: Outcome<Value>)
    ensures o.Fulfilled? ==> r == Fulfilled(inject(o.value))
    ensures o.Rejected? && onRejected.None? ==> r == Rejected(o.reason)
    ensures o.Rejected? && onRejected.Some? ==> r == Bind(onRejected.value(o.reason), Await)
  {
    Then(o, inject, None, onRejected)
  }

  /** `finally(callback)` as the wrappers build it: on either outcome the
      callback runs; when it returns, the value or the reason is kept; when
      it throws, what it threw rejects the new promise. */
  function Finally<A>(o: Outcome<A>, callback: Thunk): (r: Outcome<A>)
    ensures callback().Fulfilled? ==> r == o
    ensures callback().Rejected? ==> r == Rejected(callback().reason)
  {
    match o
    case Fulfilled(a) =>
      (match callback()
       case Fulfilled(_) => Fulfilled(a)
       case Rejected(x) => Rejected(x))
    case Rejected(e) =>
      (match callback()
       case Fulfilled(_) => Rejected(e)
       case Rejected(x) => Rejected(x))
  }
}
