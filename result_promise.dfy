/** `ResultPromise`: a deferred success/failure container.  Its `promise`
    is read-only, so every operation is a function of what that promise
    settles to: chaining operations return a new wrapper over "settle, then
    apply the synchronous operation", and the `async` accessors return the
    synchronous accessor's outcome on the awaited container.
 */
module ResultPromises {
  import opened Values
  import Promises
  import ResultOps

  /** A wrapper over a host promise that settles to `o`. */
  function Deferred(o: Outcome<Res>): (rp: ResultPromise)
    ensures rp.Settle() == o
  {
    ResultPromise(Native(o))
  }

  /** What an `async` accessor settles to: await the wrapper, apply the
      synchronous accessor (a throw rejects), and adopt what it returns. */
  function AwaitApply(self: ResultPromise, op: Res -> Outcome<Value>): (r: Outcome<Value>)
    ensures self.Settle().Rejected? ==> r == Rejected(self.Settle().reason)
    ensures self.Settle().Fulfilled? ==> r == Bind(op(self.Settle().value), Promises.Await)
  {
    Bind(Bind(self.Settle(), op), Promises.Await)
  }

  /** `then` forwards both callbacks to the wrapped promise, which may
      itself be a `ResultPromise`, so a chain of wrappers behaves as the
      innermost host promise. */
  function Then(self: ResultPromise, onFulfilled: Option<Callback>, onRejected: Option<Callback>): (r: Outcome<Value>)
    ensures r == Promises.Then(self.Settle(), (x: Res) => Res(x), onFulfilled, onRejected)
    decreases self
  {
    match self.promise
    case Native(o) => Promises.Then(o, (x: Res) => Res(x), onFulfilled, onRejected)
    case Wrapped(inner) => Then(inner, onFulfilled, onRejected)
  }

  /** `catch` passes a fulfilled container through and hands only a
      rejection to the callback. */
  function Catch(self: ResultPromise, onRejected: Option<Callback>): (r: Outcome<Value>)
    ensures self.Settle().Fulfilled? ==> r == Fulfilled(Res(self.Settle().value))
    ensures self.Settle().Rejected? && onRejected.None? ==> r == Rejected(self.Settle().reason)
    ensures self.Settle().Rejected? && onRejected.Some? ==>
              r == Bind(onRejected.value(self.Settle().reason), Promises.Await)
    decreases self
  {
    match self.promise
    case Native(o) => Promises.Then(o, (x: Res) => Res(x), None, onRejected)
    case Wrapped(inner) => Catch(inner, onRejected)
  }

  /** `finally`: the callback runs on either outcome; the container or the
      reason is kept unless the callback throws. */
  function Finally(self: ResultPromise, callback: Thunk): (r: Outcome<Res>)
    ensures callback().Fulfilled? ==> r == self.Settle()
    ensures callback().Rejected? ==> r == Rejected(callback().reason)
  {
    Promises.Finally(self.Settle(), callback)
  }

  /** `and`: settle self, then other, then combine. */
  function And(self: ResultPromise, other: ResultPromise): (r: ResultPromise)
    ensures self.Settle().Rejected? ==> r.Settle() == Rejected(self.Settle().reason)
    ensures self.Settle().Fulfilled? && other.Settle().Rejected? ==>
              r.Settle() == Rejected(other.Settle().reason)
    ensures self.Settle().Fulfilled? && other.Settle().Fulfilled? ==>
              r.Settle() == Fulfilled(ResultOps.And(self.Settle().value, other.Settle().value))
  {
    Deferred(Bind(self.Settle(), (x: Res) =>
      Bind(other.Settle(), (y: Res) => Fulfilled(ResultOps.And(x, y)))))
  }

  function AndThen(self: ResultPromise, f: Value -> Outcome<Res>): (r: ResultPromise)
    ensures self.Settle().Rejected? ==> r.Settle() == Rejected(self.Settle().reason)
    ensures self.Settle().Fulfilled? ==> r.Settle() == ResultOps.AndThen(self.Settle().value, f)
  {
    Deferred(Bind(self.Settle(), (x: Res) => ResultOps.AndThen(x, (v: Value) => f(v))))
  }

  function Expect(self: ResultPromise, message: string): (r: Outcome<Value>)
    ensures self.Settle().Rejected? ==> r == Rejected(self.Settle().reason)
    ensures self.Settle().Fulfilled? ==>
              r == Bind(ResultOps.Expect(self.Settle().value, message), Promises.Await)
  {
    AwaitApply(self, (x: Res) => ResultOps.Expect(x, message))
  }

  function ExpectErr(self: ResultPromise, message: string): (r: Outcome<Value>)
    ensures self.Settle().Rejected? ==> r == Rejected(self.Settle().reason)
    ensures self.Settle().Fulfilled? ==>
              r == Bind(ResultOps.ExpectErr(self.Settle().value, message), Promises.Await)
  {
    AwaitApply(self, (x: Res) => ResultOps.ExpectErr(x, message))
  }

  function Inspect(self: ResultPromise, f: Callback): (r: ResultPromise)
    ensures self.Settle().Rejected? ==> r.Settle() == Rejected(self.Settle().reason)
    ensures self.Settle().Fulfilled? ==> r.Settle() == ResultOps.Inspect(self.Settle().value, f)
  {
    Deferred(Bind(self.Settle(), (x: Res) => ResultOps.Inspect(x, f)))
  }

  function InspectErr(self: ResultPromise, f: Callback): (r: ResultPromise)
    ensures self.Settle().Rejected? ==> r.Settle() == Rejected(self.Settle().reason)
    ensures self.Settle().Fulfilled? ==> r.Settle() == ResultOps.InspectErr(self.Settle().value, f)
  {
    Deferred(Bind(self.Settle(), (x: Res) => ResultOps.InspectErr(x, f)))
  }

  function Map(self: ResultPromise, f: Callback): (r: ResultPromise)
    ensures self.Settle().Rejected? ==> r.Settle() == Rejected(self.Settle().reason)
    ensures self.Settle().Fulfilled? ==> r.Settle() == ResultOps.Map(self.Settle().value, f)
  {
    Deferred(Bind(self.Settle(), (x: Res) => ResultOps.Map(x, f)))
  }

  function MapErr(self: ResultPromise, f: Callback): (r: ResultPromise)
    ensures self.Settle().Rejected? ==> r.Settle() == Rejected(self.Settle().reason)
    ensures self.Settle().Fulfilled? ==> r.Settle() == ResultOps.MapErr(self.Settle().value, f)
  {
    Deferred(Bind(self.Settle(), (x: Res) => ResultOps.MapErr(x, f)))
  }

  function MapOr(self: ResultPromise, default: Value, f: Callback): (r: Outcome<Value>)
    ensures self.Settle().Rejected? ==> r == Rejected(self.Settle().reason)
    ensures self.Settle().Fulfilled? ==>
              r == Bind(ResultOps.MapOr(self.Settle().value, default, f), Promises.Await)
  {
    AwaitApply(self, (x: Res) => ResultOps.MapOr(x, default, f))
  }

  function MapOrElse(self: ResultPromise, default: Callback, f: Callback): (r: Outcome<Value>)
    ensures self.Settle().Rejected? ==> r == Rejected(self.Settle().reason)
    ensures self.Settle().Fulfilled? ==>
              r == Bind(ResultOps.MapOrElse(self.Settle().value, default, f), Promises.Await)
  {
    AwaitApply(self, (x: Res) => ResultOps.MapOrElse(x, default, f))
  }

  /** `or`: settle self, then other, then combine. */
  function Or(self: ResultPromise, other: ResultPromise): (r: ResultPromise)
    ensures self.Settle().Rejected? ==> r.Settle() == Rejected(self.Settle().reason)
    ensures self.Settle().Fulfilled? && other.Settle().Rejected? ==>
              r.Settle() == Rejected(other.Settle().reason)
    ensures self.Settle().Fulfilled? && other.Settle().Fulfilled? ==>
              r.Settle() == Fulfilled(ResultOps.Or(self.Settle().value, other.Settle().value))
  {
    Deferred(Bind(self.Settle(), (x: Res) =>
      Bind(other.Settle(), (y: Res) => Fulfilled(ResultOps.Or(x, y)))))
  }

  function OrElse(self: ResultPromise, f: Value -> Outcome<Res>): (r: ResultPromise)
    ensures self.Settle().Rejected? ==> r.Settle() == Rejected(self.Settle().reason)
    ensures self.Settle().Fulfilled? ==> r.Settle() == ResultOps.OrElse(self.Settle().value, f)
  {
    Deferred(Bind(self.Settle(), (x: Res) => ResultOps.OrElse(x, (e: Value) => f(e))))
  }

  function Unwrap(self: ResultPromise): (r: Outcome<Value>)
    ensures self.Settle().Rejected? ==> r == Rejected(self.Settle().reason)
    ensures self.Settle().Fulfilled? ==> r == Bind(ResultOps.Unwrap(self.Settle().value), Promises.Await)
  {
    AwaitApply(self, ResultOps.Unwrap)
  }

  function UnwrapErr(self: ResultPromise): (r: Outcome<Value>)
    ensures self.Settle().Rejected? ==> r == Rejected(self.Settle().reason)
    ensures self.Settle().Fulfilled? ==> r == Bind(ResultOps.UnwrapErr(self.Settle().value), Promises.Await)
  {
    AwaitApply(self, ResultOps.UnwrapErr)
  }

  function UnwrapOr(self: ResultPromise, default: Value): (r: Outcome<Value>)
    ensures self.Settle().Rejected? ==> r == Rejected(self.Settle().reason)
    ensures self.Settle().Fulfilled? ==> r == Promises.Await(ResultOps.UnwrapOr(self.Settle().value, default))
  {
    AwaitApply(self, (x: Res) => Fulfilled(ResultOps.UnwrapOr(x, default)))
  }

  function UnwrapOrElse(self: ResultPromise, default: Callback): (r: Outcome<Value>)
    ensures self.Settle().Rejected? ==> r == Rejected(self.Settle().reason)
    ensures self.Settle().Fulfilled? ==>
              r == Bind(ResultOps.UnwrapOrElse(self.Settle().value, default), Promises.Await)
  {
    AwaitApply(self, (x: Res) => ResultOps.UnwrapOrElse(x, default))
  }

  function Match(self: ResultPromise, ok: Callback, err: Callback): (r: Outcome<Value>)
    ensures self.Settle().Rejected? ==> r == Rejected(self.Settle().reason)
    ensures self.Settle().Fulfilled? ==>
              r == Bind(ResultOps.Match(self.Settle().value, ok, err), Promises.Await)
  {
    AwaitApply(self, (x: Res) => ResultOps.Match(x, ok, err))
  }

  // ---------------------------------------------------------------------
  // Laws of the deferred container

  /** A wrapper around another wrapper settles, and answers `then`, as the
      inner one does. */
  lemma WrappedBehavesAsInner(inner: ResultPromise, onFulfilled: Option<Callback>, onRejected: Option<Callback>)
    ensures ResultPromise(Wrapped(inner)).Settle() == inner.Settle()
    ensures Then(ResultPromise(Wrapped(inner)), onFulfilled, onRejected) == Then(inner, onFulfilled, onRejected)
  {
  }

  /** On a rejected wrapper no callback is consulted: every chaining
      operation gives the same outcome whichever callbacks it is given. */
  lemma RejectionIgnoresCallbacks(self: ResultPromise, f1: Callback, f2: Callback, g1: Callback, g2: Callback,
                                  h: Value -> Outcome<Res>, k: Value -> Outcome<Res>)
    requires self.Settle().Rejected?
    ensures Map(self, f1).Settle() == Map(self, g1).Settle()
    ensures MapErr(self, f1).Settle() == MapErr(self, g1).Settle()
    ensures Inspect(self, f1).Settle() == Inspect(self, g1).Settle()
    ensures InspectErr(self, f1).Settle() == InspectErr(self, g1).Settle()
    ensures AndThen(self, h).Settle() == AndThen(self, k).Settle()
    ensures OrElse(self, h).Settle() == OrElse(self, k).Settle()
    ensures MapOrElse(self, f1, f2) == MapOrElse(self, g1, g2)
    ensures UnwrapOrElse(self, f1) == UnwrapOrElse(self, g1)
    ensures Match(self, f1, f2) == Match(self, g1, g2)
  {
  }

  /** `and` and `or` settle self first: when self rejects, the other
      wrapper's outcome does not matter. */
  lemma SelfRejectionWins(self: ResultPromise, other1: ResultPromise, other2: ResultPromise)
    requires self.Settle().Rejected?
    ensures And(self, other1).Settle() == And(self, other2).Settle()
    ensures Or(self, other1).Settle() == Or(self, other2).Settle()
  {
  }

  /** The deferred `and` is not lazy: although the synchronous `and` of an
      `Err` ignores its argument, the deferred one still waits for the
      other wrapper and rejects when it does; likewise `or` on an `Ok`. */
  lemma CombinatorsAwaitOther(e: Value, v: Value, other: ResultPromise)
    requires other.Settle().Rejected?
    ensures forall y: Res :: ResultOps.And(Err(e), y) == Err(e) && ResultOps.Or(Ok(v), y) == Ok(v)
    ensures And(Deferred(Fulfilled(Err(e))), other).Settle() == Rejected(other.Settle().reason)
    ensures Or(Deferred(Fulfilled(Ok(v))), other).Settle() == Rejected(other.Settle().reason)
  {
  }

  /** Mapping with the identity keeps the outcome. */
  lemma MapIdentity(self: ResultPromise)
    ensures Map(self, (v: Value) => Fulfilled(v)).Settle() == self.Settle()
    ensures MapErr(self, (v: Value) => Fulfilled(v)).Settle() == self.Settle()
  {
    match self.Settle()
    case Rejected(_) =>
    case Fulfilled(r) =>
      match r
      case Ok(v) =>
        assert ResultOps.Map(r, (v: Value) => Fulfilled(v)) == Fulfilled(Ok(v));
      case Err(e) =>
        assert ResultOps.MapErr(r, (v: Value) => Fulfilled(v)) == Fulfilled(Err(e));
  }

  /** Mapping twice is mapping once with the two callbacks composed (a
      throw of the first skips the second). */
  lemma MapFusion(self: ResultPromise, f: Callback, g: Callback)
    ensures Map(Map(self, f), g).Settle() == Map(self, (v: Value) => Bind(f(v), g)).Settle()
  {
    match self.Settle()
    case Rejected(_) =>
    case Fulfilled(r) =>
      match r
      case Err(_) =>
      case Ok(v) =>
        match f(v)
        case Rejected(_) =>
        case Fulfilled(u) =>
          assert Map(self, f).Settle() == Fulfilled(Ok(u));
  }

  /** `andThen` on a wrapper that settles to `Ok(v)` is `f(v)`. */
  lemma AndThenLeftIdentity(v: Value, f: Value -> Outcome<Res>)
    ensures AndThen(Deferred(Fulfilled(Ok(v))), f).Settle() == f(v)
  {
  }

  /** `andThen` with a callback that wraps in `Ok` keeps the outcome. */
  lemma AndThenRightIdentity(self: ResultPromise)
    ensures AndThen(self, (v: Value) => Fulfilled(Ok(v))).Settle() == self.Settle()
  {
    match self.Settle()
    case Rejected(_) =>
    case Fulfilled(r) =>
      assert ResultOps.AndThen(r, (v: Value) => Fulfilled(Ok(v))) == Fulfilled(r);
  }

  /** Chaining `andThen` twice is chaining once with the composed step. */
  lemma AndThenAssociative(self: ResultPromise, f: Value -> Outcome<Res>, g: Value -> Outcome<Res>)
    ensures AndThen(AndThen(self, f), g).Settle() ==
            AndThen(self, (v: Value) => Bind(f(v), (r: Res) => ResultOps.AndThen(r, g))).Settle()
  {
    match self.Settle()
    case Rejected(_) =>
    case Fulfilled(r) =>
      match r
      case Err(_) =>
      case Ok(v) =>
        match f(v)
        case Rejected(_) =>
        case Fulfilled(u) =>
          assert AndThen(self, f).Settle() == Fulfilled(u);
  }

  /** An `Err` short-circuits `andThen` and an `Ok` short-circuits
      `orElse`, whatever the callback. */
  lemma ShortCircuits(e: Value, v: Value, f: Value -> Outcome<Res>)
    ensures AndThen(Deferred(Fulfilled(Err(e))), f).Settle() == Fulfilled(Err(e))
    ensures OrElse(Deferred(Fulfilled(Ok(v))), f).Settle() == Fulfilled(Ok(v))
  {
  }

  /** A panic raised by an accessor rejects the promise it returns. */
  lemma AccessorPanicRejects(e: Value, v: Value, message: string)
    ensures Unwrap(Deferred(Fulfilled(Err(e)))) == Rejected(PanicValue(AccessPanic(None, e)))
    ensures UnwrapErr(Deferred(Fulfilled(Ok(v)))) == Rejected(PanicValue(AccessPanic(None, v)))
    ensures Expect(Deferred(Fulfilled(Err(e))), message) == Rejected(PanicValue(AccessPanic(Some(message), e)))
    ensures ExpectErr(Deferred(Fulfilled(Ok(v))), message) == Rejected(PanicValue(AccessPanic(Some(message), v)))
  {
  }
}
