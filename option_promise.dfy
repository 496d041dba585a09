/** `OptionPromise`: a deferred present/absent container.  Its `promise` is
    read-only; each operation is "settle, then apply the synchronous
    operation", and `okOr`/`okOrElse` produce a `ResultPromise`.
 */
module OptionPromises {
  import opened Values
  import Promises
  import OptionOps
  import ResultPromises

  /** A wrapper over a host promise that settles to `promise`. */
  datatype OptionPromise = OptionPromise(promise: Outcome<Opt>)

  /** What an `async` accessor settles to: await the wrapper, apply the
      synchronous accessor (a throw rejects), and adopt what it returns. */
  function AwaitApply(self: OptionPromise, op: Opt -> Outcome<Value>): (r: Outcome<Value>)
    ensures self.promise.Rejected? ==> r == Rejected(self.promise.reason)
    ensures self.promise.Fulfilled? ==> r == Bind(op(self.promise.value), Promises.Await)
  {
    Bind(Bind(self.promise, op), Promises.Await)
  }

  /** `then` forwards both callbacks to the wrapped promise. */
  function Then(self: OptionPromise, onFulfilled: Option<Callback>, onRejected: Option<Callback>): (r: Outcome<Value>)
    ensures self.promise.Fulfilled? && onFulfilled.None? ==> r == Fulfilled(Opt(self.promise.value))
    ensures self.promise.Fulfilled? && onFulfilled.Some? ==>
              r == Bind(onFulfilled.value(Opt(self.promise.value)), Promises.Await)
    ensures self.promise.Rejected? && onRejected.None? ==> r == Rejected(self.promise.reason)
    ensures self.promise.Rejected? && onRejected.Some? ==>
              r == Bind(onRejected.value(self.promise.reason), Promises.Await)
  {
    Promises.Then(self.promise, (x: Opt) => Opt(x), onFulfilled, onRejected)
  }

  /** `catch` passes a fulfilled container through unchanged. */
  function Catch(self: OptionPromise, onRejected: Option<Callback>): (r: Outcome<Value>)
    ensures self.promise.Fulfilled? ==> r == Fulfilled(Opt(self.promise.value))
    ensures self.promise.Rejected? && onRejected.None? ==> r == Rejected(self.promise.reason)
    ensures self.promise.Rejected? && onRejected.Some? ==>
              r == Bind(onRejected.value(self.promise.reason), Promises.Await)
  {
    Promises.Catch(self.promise, (x: Opt) => Opt(x), onRejected)
  }

  /** `finally`: the callback runs on either outcome; the container or the
      reason is kept unless the callback throws. */
  function Finally(self: OptionPromise, callback: Thunk): (r: Outcome<Opt>)
    ensures callback().Fulfilled? ==> r == self.promise
    ensures callback().Rejected? ==> r == Rejected(callback().reason)
  {
    Promises.Finally(self.promise, callback)
  }

  function OkOr(self: OptionPromise, err: Value): (r: ResultPromise)
    ensures self.promise.Rejected? ==> r.Settle() == Rejected(self.promise.reason)
    ensures self.promise.Fulfilled? ==> r.Settle() == Fulfilled(OptionOps.OkOr(self.promise.value, err))
  {
    ResultPromises.Deferred(Bind(self.promise, (x: Opt) => Fulfilled(OptionOps.OkOr(x, err))))
  }

  function OkOrElse(self: OptionPromise, err: Thunk): (r: ResultPromise)
    ensures self.promise.Rejected? ==> r.Settle() == Rejected(self.promise.reason)
    ensures self.promise.Fulfilled? ==> r.Settle() == OptionOps.OkOrElse(self.promise.value, err)
  {
    ResultPromises.Deferred(Bind(self.promise, (x: Opt) => OptionOps.OkOrElse(x, err)))
  }

  /** `and`: settle self, then other, then combine. */
  function And(self: OptionPromise, other: OptionPromise): (r: OptionPromise)
    ensures self.promise.Rejected? ==> r.promise == Rejected(self.promise.reason)
    ensures self.promise.Fulfilled? && other.promise.Rejected? ==> r.promise == Rejected(other.promise.reason)
    ensures self.promise.Fulfilled? && other.promise.Fulfilled? ==>
              r.promise == Fulfilled(OptionOps.And(self.promise.value, other.promise.value))
  {
    OptionPromise(Bind(self.promise, (x: Opt) =>
      Bind(other.promise, (y: Opt) => Fulfilled(OptionOps.And(x, y)))))
  }

  function AndThen(self: OptionPromise, f: Value -> Outcome<Opt>): (r: OptionPromise)
    ensures self.promise.Rejected? ==> r.promise == Rejected(self.promise.reason)
    ensures self.promise.Fulfilled? ==> r.promise == OptionOps.AndThen(self.promise.value, f)
  {
    OptionPromise(Bind(self.promise, (x: Opt) => OptionOps.AndThen(x, (v: Value) => f(v))))
  }

  function Inspect(self: OptionPromise, f: Callback): (r: OptionPromise)
    ensures self.promise.Rejected? ==> r.promise == Rejected(self.promise.reason)
    ensures self.promise.Fulfilled? ==> r.promise == OptionOps.Inspect(self.promise.value, f)
  {
    OptionPromise(Bind(self.promise, (x: Opt) => OptionOps.Inspect(x, f)))
  }

  function Expect(self: OptionPromise, message: string): (r: Outcome<Value>)
    ensures self.promise.Rejected? ==> r == Rejected(self.promise.reason)
    ensures self.promise.Fulfilled? ==>
              r == Bind(OptionOps.Expect(self.promise.value, message), Promises.Await)
  {
    AwaitApply(self, (x: Opt) => OptionOps.Expect(x, message))
  }

  function Filter(self: OptionPromise, f: Value -> Outcome<bool>): (r: OptionPromise)
    ensures self.promise.Rejected? ==> r.promise == Rejected(self.promise.reason)
    ensures self.promise.Fulfilled? ==> r.promise == OptionOps.Filter(self.promise.value, f)
  {
    OptionPromise(Bind(self.promise, (x: Opt) => OptionOps.Filter(x, f)))
  }

  /** The receiver's static type is a promise of an option of an option. */
  predicate Nested(self: OptionPromise)
  {
    self.promise.Fulfilled? && self.promise.value.Some? ==> self.promise.value.value.Opt?
  }

  function Flatten(self: OptionPromise): (r: OptionPromise)
    requires Nested(self)
    ensures self.promise.Rejected? ==> r.promise == Rejected(self.promise.reason)
    ensures self.promise.Fulfilled? ==> r.promise == Fulfilled(OptionOps.Flatten(self.promise.value))
  {
    match self.promise
    case Fulfilled(x) => OptionPromise(Fulfilled(OptionOps.Flatten(x)))
    case Rejected(e) => OptionPromise(Rejected(e))
  }

  function Map(self: OptionPromise, f: Callback): (r: OptionPromise)
    ensures self.promise.Rejected? ==> r.promise == Rejected(self.promise.reason)
    ensures self.promise.Fulfilled? ==> r.promise == OptionOps.Map(self.promise.value, f)
  {
    OptionPromise(Bind(self.promise, (x: Opt) => OptionOps.Map(x, f)))
  }

  function MapOr(self: OptionPromise, default: Value, f: Callback): (r: Outcome<Value>)
    ensures self.promise.Rejected? ==> r == Rejected(self.promise.reason)
    ensures self.promise.Fulfilled? ==>
              r == Bind(OptionOps.MapOr(self.promise.value, default, f), Promises.Await)
  {
    AwaitApply(self, (x: Opt) => OptionOps.MapOr(x, default, f))
  }

  function MapOrElse(self: OptionPromise, default: Thunk, f: Callback): (r: Outcome<Value>)
    ensures self.promise.Rejected? ==> r == Rejected(self.promise.reason)
    ensures self.promise.Fulfilled? ==>
              r == Bind(OptionOps.MapOrElse(self.promise.value, default, f), Promises.Await)
  {
    AwaitApply(self, (x: Opt) => OptionOps.MapOrElse(x, default, f))
  }

  /** `or`: settle self, then other, then combine. */
  function Or(self: OptionPromise, other: OptionPromise): (r: OptionPromise)
    ensures self.promise.Rejected? ==> r.promise == Rejected(self.promise.reason)
    ensures self.promise.Fulfilled? && other.promise.Rejected? ==> r.promise == Rejected(other.promise.reason)
    ensures self.promise.Fulfilled? && other.promise.Fulfilled? ==>
              r.promise == Fulfilled(OptionOps.Or(self.promise.value, other.promise.value))
  {
    OptionPromise(Bind(self.promise, (x: Opt) =>
      Bind(other.promise, (y: Opt) => Fulfilled(OptionOps.Or(x, y)))))
  }

  function OrElse(self: OptionPromise, f: () -> Outcome<Opt>): (r: OptionPromise)
    ensures self.promise.Rejected? ==> r.promise == Rejected(self.promise.reason)
    ensures self.promise.Fulfilled? ==> r.promise == OptionOps.OrElse(self.promise.value, f)
  {
    OptionPromise(Bind(self.promise, (x: Opt) => OptionOps.OrElse(x, () => f())))
  }

  function Unwrap(self: OptionPromise): (r: Outcome<Value>)
    ensures self.promise.Rejected? ==> r == Rejected(self.promise.reason)
    ensures self.promise.Fulfilled? ==> r == Bind(OptionOps.Unwrap(self.promise.value), Promises.Await)
  {
    AwaitApply(self, OptionOps.Unwrap)
  }

  function UnwrapOr(self: OptionPromise, default: Value): (r: Outcome<Value>)
    ensures self.promise.Rejected? ==> r == Rejected(self.promise.reason)
    ensures self.promise.Fulfilled? ==> r == Promises.Await(OptionOps.UnwrapOr(self.promise.value, default))
  {
    AwaitApply(self, (x: Opt) => Fulfilled(OptionOps.UnwrapOr(x, default)))
  }

  function UnwrapOrElse(self: OptionPromise, f: Thunk): (r: Outcome<Value>)
    ensures self.promise.Rejected? ==> r == Rejected(self.promise.reason)
    ensures self.promise.Fulfilled? ==>
              r == Bind(OptionOps.UnwrapOrElse(self.promise.value, f), Promises.Await)
  {
    AwaitApply(self, (x: Opt) => OptionOps.UnwrapOrElse(x, f))
  }

  /** `xor`: settle self, then other, then combine. */
  function Xor(self: OptionPromise, other: OptionPromise): (r: OptionPromise)
    ensures self.promise.Rejected? ==> r.promise == Rejected(self.promise.reason)
    ensures self.promise.Fulfilled? && other.promise.Rejected? ==> r.promise == Rejected(other.promise.reason)
    ensures self.promise.Fulfilled? && other.promise.Fulfilled? ==>
              r.promise == Fulfilled(OptionOps.Xor(self.promise.value, other.promise.value))
  {
    OptionPromise(Bind(self.promise, (x: Opt) =>
      Bind(other.promise, (y: Opt) => Fulfilled(OptionOps.Xor(x, y)))))
  }

  function Match(self: OptionPromise, matcher: OptionOps.OptionMatch): (r: Outcome<Value>)
    ensures self.promise.Rejected? ==> r == Rejected(self.promise.reason)
    ensures self.promise.Fulfilled? ==>
              r == Bind(OptionOps.Match(self.promise.value, matcher), Promises.Await)
  {
    AwaitApply(self, (x: Opt) => OptionOps.Match(x, matcher))
  }

  // ---------------------------------------------------------------------
  // Laws of the deferred container

  /** On a rejected wrapper no callback is consulted. */
  lemma RejectionIgnoresCallbacks(self: OptionPromise, f: Callback, g: Callback,
                                  p: Value -> Outcome<bool>, q: Value -> Outcome<bool>,
                                  h: Value -> Outcome<Opt>, k: Value -> Outcome<Opt>,
                                  d: Thunk, e: Thunk, o1: () -> Outcome<Opt>, o2: () -> Outcome<Opt>)
    requires self.promise.Rejected?
    ensures Map(self, f) == Map(self, g)
    ensures Inspect(self, f) == Inspect(self, g)
    ensures Filter(self, p) == Filter(self, q)
    ensures AndThen(self, h) == AndThen(self, k)
    ensures OrElse(self, o1) == OrElse(self, o2)
    ensures OkOrElse(self, d).Settle() == OkOrElse(self, e).Settle()
    ensures MapOrElse(self, d, f) == MapOrElse(self, e, g)
    ensures UnwrapOrElse(self, d) == UnwrapOrElse(self, e)
    ensures Match(self, OptionOps.OptionMatch(f, d)) == Match(self, OptionOps.OptionMatch(g, e))
  {
  }

  /** `and`, `or` and `xor` settle self first: when self rejects, the
      other wrapper's outcome does not matter. */
  lemma SelfRejectionWins(self: OptionPromise, other1: OptionPromise, other2: OptionPromise)
    requires self.promise.Rejected?
    ensures And(self, other1) == And(self, other2)
    ensures Or(self, other1) == Or(self, other2)
    ensures Xor(self, other1) == Xor(self, other2)
  {
  }

  /** `xor` is symmetric once both sides settle to a container, but not
      when both reject: then the receiver's reason wins. */
  lemma XorSymmetry(a: OptionPromise, b: OptionPromise)
    ensures a.promise.Fulfilled? && b.promise.Fulfilled? ==> Xor(a, b) == Xor(b, a)
    ensures a.promise.Rejected? && b.promise.Rejected? ==>
              Xor(a, b).promise == Rejected(a.promise.reason) &&
              Xor(b, a).promise == Rejected(b.promise.reason)
  {
  }

  /** The deferred `and` still waits for the other wrapper when self is
      `None`, and `or` when self is `Some`. */
  lemma CombinatorsAwaitOther(v: Value, other: OptionPromise)
    requires other.promise.Rejected?
    ensures forall y: Opt :: OptionOps.And(None, y) == None && OptionOps.Or(Some(v), y) == Some(v)
    ensures And(OptionPromise(Fulfilled(None)), other).promise == Rejected(other.promise.reason)
    ensures Or(OptionPromise(Fulfilled(Some(v))), other).promise == Rejected(other.promise.reason)
  {
  }

  /** `Some(5).filter(x => x > 10)` settles to `None`, and `Some(15)`
      passes the same filter. */
  lemma FilterExample()
    ensures var greaterThanTen := (x: Value) => Fulfilled(x.Num? && x.n > 10);
            Filter(OptionPromise(Fulfilled(Some(Num(5)))), greaterThanTen).promise == Fulfilled(None) &&
            Filter(OptionPromise(Fulfilled(Some(Num(15)))), greaterThanTen).promise == Fulfilled(Some(Num(15)))
  {
  }

  /** `None.okOr("missing")` settles to `Err("missing")` and
      `Some(1).okOr("missing")` to `Ok(1)`. */
  lemma OkOrExample()
    ensures OkOr(OptionPromise(Fulfilled(None)), Str("missing")).Settle() == Fulfilled(Err(Str("missing")))
    ensures OkOr(OptionPromise(Fulfilled(Some(Num(1)))), Str("missing")).Settle() == Fulfilled(Ok(Num(1)))
  {
  }

  /** `flatten` collapses one level: `Some(Some(3))` to `Some(3)`,
      `Some(None)` and `None` to `None`. */
  lemma FlattenExample()
    ensures Flatten(OptionPromise(Fulfilled(Some(Opt(Some(Num(3))))))).promise == Fulfilled(Some(Num(3)))
    ensures Flatten(OptionPromise(Fulfilled(Some(Opt(None))))).promise == Fulfilled(None)
    ensures Flatten(OptionPromise(Fulfilled(None))).promise == Fulfilled(None)
  {
  }

  /** Mapping with the identity keeps the outcome. */
  lemma MapIdentity(self: OptionPromise)
    ensures Map(self, (v: Value) => Fulfilled(v)) == self
  {
    match self.promise
    case Rejected(_) =>
    case Fulfilled(o) =>
      match o
      case None =>
      case Some(v) =>
        assert OptionOps.Map(o, (v: Value) => Fulfilled(v)) == Fulfilled(Some(v));
  }

  /** `andThen` with a callback that wraps in `Some` keeps the outcome,
      and `andThen` on `Some(v)` is the callback's outcome. */
  lemma AndThenIdentities(self: OptionPromise, v: Value, f: Value -> Outcome<Opt>)
    ensures AndThen(self, (x: Value) => Fulfilled(Some(x))) == self
    ensures AndThen(OptionPromise(Fulfilled(Some(v))), f).promise == f(v)
  {
    match self.promise
    case Rejected(_) =>
    case Fulfilled(o) =>
      assert OptionOps.AndThen(o, (x: Value) => Fulfilled(Some(x))) == Fulfilled(o);
  }

  /** Mapping twice is mapping once with the two callbacks composed. */
  lemma MapFusion(self: OptionPromise, f: Callback, g: Callback)
    ensures Map(Map(self, f), g) == Map(self, (v: Value) => Bind(f(v), g))
  {
    match self.promise
    case Rejected(_) =>
    case Fulfilled(o) =>
      match o
      case None =>
      case Some(v) =>
        match f(v)
        case Rejected(_) =>
        case Fulfilled(u) =>
          assert Map(self, f).promise == Fulfilled(Some(u));
  }

  /** Chaining `andThen` twice is chaining once with the composed step. */
  lemma AndThenAssociative(self: OptionPromise, f: Value -> Outcome<Opt>, g: Value -> Outcome<Opt>)
    ensures AndThen(AndThen(self, f), g) ==
            AndThen(self, (v: Value) => Bind(f(v), (o: Opt) => OptionOps.AndThen(o, g)))
  {
    match self.promise
    case Rejected(_) =>
    case Fulfilled(o) =>
      match o
      case None =>
      case Some(v) =>
        match f(v)
        case Rejected(_) =>
        case Fulfilled(u) =>
          assert AndThen(self, f).promise == Fulfilled(u);
  }
}
