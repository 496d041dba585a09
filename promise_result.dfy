/** `PromiseResult`: the older deferred success/failure container.  Its
    public surface is `then`, `catch`, `finally` and the `MethodsAsync`
    interface (`expect`, `expectErr`, `map`, `mapErr`, `mapOr`,
    `mapOrElse`, `unwrap`, `unwrapErr`, `unwrapOr`, `unwrapOrElse`,
    `match`, `tap`); it has no `and`, `andThen`, `or` or `orElse`, and this
    module defines none.
 */
module PromiseResults {
  import opened Values
  import Promises
  import ResultOps

  /** A wrapper over a host promise that settles to `promise`. */
  datatype PromiseResult = PromiseResult(promise: Outcome<Res>)

  /** What an `async` accessor settles to: await the wrapper, apply the
      synchronous accessor (a throw rejects), and adopt what it returns. */
  function AwaitApply(self: PromiseResult, op: Res -> Outcome<Value>): (r: Outcome<Value>)
    ensures self.promise.Rejected? ==> r == Rejected(self.promise.reason)
    ensures self.promise.Fulfilled? ==> r == Bind(op(self.promise.value), Promises.Await)
  {
    Bind(Bind(self.promise, op), Promises.Await)
  }

  /** `then` forwards both callbacks to the wrapped promise unchanged. */
  function Then(self: PromiseResult, onFulfilled: Option<Callback>, onRejected: Option<Callback>): (r: Outcome<Value>)
    ensures self.promise.Fulfilled? && onFulfilled.None? ==> r == Fulfilled(Res(self.promise.value))
    ensures self.promise.Fulfilled? && onFulfilled.Some? ==>
              r == Bind(onFulfilled.value(Res(self.promise.value)), Promises.Await)
    ensures self.promise.Rejected? && onRejected.None? ==> r == Rejected(self.promise.reason)
    ensures self.promise.Rejected? && onRejected.Some? ==>
              r == Bind(onRejected.value(self.promise.reason), Promises.Await)
  {
    Promises.Then(self.promise, (x: Res) => Res(x), onFulfilled, onRejected)
  }

  /** `catch` passes a fulfilled container through unchanged. */
  function Catch(self: PromiseResult, onRejected: Option<Callback>): (r: Outcome<Value>)
    ensures self.promise.Fulfilled? ==> r == Fulfilled(Res(self.promise.value))
    ensures self.promise.Rejected? && onRejected.None? ==> r == Rejected(self.promise.reason)
    ensures self.promise.Rejected? && onRejected.Some? ==>
              r == Bind(onRejected.value(self.promise.reason), Promises.Await)
  {
    Promises.Catch(self.promise, (x: Res) => Res(x), onRejected)
  }

  /** `finally`: the callback runs on either outcome; the container or the
      reason is kept unless the callback throws. */
  function Finally(self: PromiseResult, callback: Thunk): (r: Outcome<Res>)
    ensures callback().Fulfilled? ==> r == self.promise
    ensures callback().Rejected? ==> r == Rejected(callback().reason)
  {
    Promises.Finally(self.promise, callback)
  }

  function Expect(self: PromiseResult, message: string): (r: Outcome<Value>)
    ensures self.promise.Rejected? ==> r == Rejected(self.promise.reason)
    ensures self.promise.Fulfilled? ==>
              r == Bind(ResultOps.Expect(self.promise.value, message), Promises.Await)
  {
    AwaitApply(self, (x: Res) => ResultOps.Expect(x, message))
  }

  function ExpectErr(self: PromiseResult, message: string): (r: Outcome<Value>)
    ensures self.promise.Rejected? ==> r == Rejected(self.promise.reason)
    ensures self.promise.Fulfilled? ==>
              r == Bind(ResultOps.ExpectErr(self.promise.value, message), Promises.Await)
  {
    AwaitApply(self, (x: Res) => ResultOps.ExpectErr(x, message))
  }

  function Map(self: PromiseResult, f: Callback): (r: PromiseResult)
    ensures self.promise.Rejected? ==> r.promise == Rejected(self.promise.reason)
    ensures self.promise.Fulfilled? ==> r.promise == ResultOps.Map(self.promise.value, f)
  {
    PromiseResult(Bind(self.promise, (x: Res) => ResultOps.Map(x, f)))
  }

  function MapErr(self: PromiseResult, f: Callback): (r: PromiseResult)
    ensures self.promise.Rejected? ==> r.promise == Rejected(self.promise.reason)
    ensures self.promise.Fulfilled? ==> r.promise == ResultOps.MapErr(self.promise.value, f)
  {
    PromiseResult(Bind(self.promise, (x: Res) => ResultOps.MapErr(x, f)))
  }

  function MapOr(self: PromiseResult, default: Value, f: Callback): (r: Outcome<Value>)
    ensures self.promise.Rejected? ==> r == Rejected(self.promise.reason)
    ensures self.promise.Fulfilled? ==>
              r == Bind(ResultOps.MapOr(self.promise.value, default, f), Promises.Await)
  {
    AwaitApply(self, (x: Res) => ResultOps.MapOr(x, default, f))
  }

  function MapOrElse(self: PromiseResult, default: Callback, f: Callback): (r: Outcome<Value>)
    ensures self.promise.Rejected? ==> r == Rejected(self.promise.reason)
    ensures self.promise.Fulfilled? ==>
              r == Bind(ResultOps.MapOrElse(self.promise.value, default, f), Promises.Await)
  {
    AwaitApply(self, (x: Res) => ResultOps.MapOrElse(x, default, f))
  }

  function Unwrap(self: PromiseResult): (r: Outcome<Value>)
    ensures self.promise.Rejected? ==> r == Rejected(self.promise.reason)
    ensures self.promise.Fulfilled? ==> r == Bind(ResultOps.Unwrap(self.promise.value), Promises.Await)
  {
    AwaitApply(self, ResultOps.Unwrap)
  }

  function UnwrapErr(self: PromiseResult): (r: Outcome<Value>)
    ensures self.promise.Rejected? ==> r == Rejected(self.promise.reason)
    ensures self.promise.Fulfilled? ==> r == Bind(ResultOps.UnwrapErr(self.promise.value), Promises.Await)
  {
    AwaitApply(self, ResultOps.UnwrapErr)
  }

  function UnwrapOr(self: PromiseResult, default: Value): (r: Outcome<Value>)
    ensures self.promise.Rejected? ==> r == Rejected(self.promise.reason)
    ensures self.promise.Fulfilled? ==> r == Promises.Await(ResultOps.UnwrapOr(self.promise.value, default))
  {
    AwaitApply(self, (x: Res) => Fulfilled(ResultOps.UnwrapOr(x, default)))
  }

  function UnwrapOrElse(self: PromiseResult, default: Callback): (r: Outcome<Value>)
    ensures self.promise.Rejected? ==> r == Rejected(self.promise.reason)
    ensures self.promise.Fulfilled? ==>
              r == Bind(ResultOps.UnwrapOrElse(self.promise.value, default), Promises.Await)
  {
    AwaitApply(self, (x: Res) => ResultOps.UnwrapOrElse(x, default))
  }

  function Match(self: PromiseResult, ok: Callback, err: Callback): (r: Outcome<Value>)
    ensures self.promise.Rejected? ==> r == Rejected(self.promise.reason)
    ensures self.promise.Fulfilled? ==>
              r == Bind(ResultOps.Match(self.promise.value, ok, err), Promises.Await)
  {
    AwaitApply(self, (x: Res) => ResultOps.Match(x, ok, err))
  }

  function Tap(self: PromiseResult): (r: Outcome<Value>)
    ensures self.promise.Rejected? ==> r == Rejected(self.promise.reason)
    ensures self.promise.Fulfilled? ==> r == Bind(ResultOps.Tap(self.promise.value), Promises.Await)
  {
    AwaitApply(self, ResultOps.Tap)
  }

  // ---------------------------------------------------------------------
  // Laws of the deferred container

  /** `tap` surfaces an `Err` as a rejection with the error itself, and an
      `Ok` as its (awaited) payload. */
  lemma TapSurfacesErr(e: Value, v: Value)
    ensures Tap(PromiseResult(Fulfilled(Err(e)))) == Rejected(e)
    ensures !Promises.Thenable(v) ==> Tap(PromiseResult(Fulfilled(Ok(v)))) == Fulfilled(v)
  {
  }

  /** On a rejected wrapper no callback is consulted. */
  lemma RejectionIgnoresCallbacks(self: PromiseResult, f1: Callback, f2: Callback, g1: Callback, g2: Callback)
    requires self.promise.Rejected?
    ensures Map(self, f1) == Map(self, g1)
    ensures MapErr(self, f1) == MapErr(self, g1)
    ensures MapOrElse(self, f1, f2) == MapOrElse(self, g1, g2)
    ensures UnwrapOrElse(self, f1) == UnwrapOrElse(self, g1)
    ensures Match(self, f1, f2) == Match(self, g1, g2)
  {
  }

  /** Mapping with the identity keeps the outcome. */
  lemma MapIdentity(self: PromiseResult)
    ensures Map(self, (v: Value) => Fulfilled(v)) == self
    ensures MapErr(self, (v: Value) => Fulfilled(v)) == self
  {
    match self.promise
    case Rejected(_) =>
    case Fulfilled(r) =>
      match r
      case Ok(v) =>
        assert ResultOps.Map(r, (v: Value) => Fulfilled(v)) == Fulfilled(Ok(v));
      case Err(e) =>
        assert ResultOps.MapErr(r, (v: Value) => Fulfilled(v)) == Fulfilled(Err(e));
  }

  /** A callback that returns makes `finally` transparent; one that throws
      replaces even an earlier rejection's reason. */
  lemma FinallyLaws(self: PromiseResult, x: Value)
    ensures Finally(self, () => Fulfilled(Undefined)) == self.promise
    ensures Finally(self, () => Rejected(x)) == Rejected(x)
  {
  }

  /** Mapping twice is mapping once with the two callbacks composed, and
      likewise for `mapErr`. */
  lemma MapFusion(self: PromiseResult, f: Callback, g: Callback)
    ensures Map(Map(self, f), g) == Map(self, (v: Value) => Bind(f(v), g))
    ensures MapErr(MapErr(self, f), g) == MapErr(self, (v: Value) => Bind(f(v), g))
  {
    match self.promise
    case Rejected(_) =>
    case Fulfilled(r) =>
      match r
      case Ok(v) => {
        match f(v)
        case Rejected(_) =>
        case Fulfilled(u) =>
          assert Map(self, f).promise == Fulfilled(Ok(u));
      }
      case Err(e) =>
        match f(e)
        case Rejected(_) =>
        case Fulfilled(u) =>
          assert MapErr(self, f).promise == Fulfilled(Err(u));
  }
}
