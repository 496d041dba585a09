/** The function adapters: thin wrappers whose only run-time content is
    to hand their arguments on, wrap a returned promise in a
    `ResultPromise`, or start one of the interpreters on a fresh generator.
    An argument list is a sequence of values.
 */
module Adapters {
  import opened Values
  import Interpreters

  /** `fn(f)`: the function itself, called with the same arguments. */
  function Fn(f: seq<Value> -> Outcome<Res>): (g: seq<Value> -> Outcome<Res>)
    ensures forall args :: g(args) == f(args)
  {
    f
  }

  /** `asyncFn(f)`: each call runs `f` once with the same arguments; what
      `f` returns (a host promise of a container or a `ResultPromise`)
      becomes the source of a new `ResultPromise`, which settles as that
      source does.  A synchronous throw of `f` is not caught. */
  function AsyncFn(f: seq<Value> -> Outcome<PromiseSource>): (g: seq<Value> -> Outcome<ResultPromise>)
    ensures forall args :: f(args).Rejected? ==> g(args) == Rejected(f(args).reason)
    ensures forall args :: f(args).Fulfilled? ==> g(args).Fulfilled? && g(args).value.promise == f(args).value
    ensures forall args :: f(args).Fulfilled? && f(args).value.Native? ==>
              g(args).value.Settle() == f(args).value.outcome
    ensures forall args :: f(args).Fulfilled? && f(args).value.Wrapped? ==>
              g(args).value.Settle() == f(args).value.inner.Settle()
  {
    (args: seq<Value>) => MapOutcome(f(args), (src: PromiseSource) => ResultPromise(src))
  }

  /** `genFn(f)(...args)`: `run` with the factory `() => f(...args)`;
      `f(args)` is what that call does (a generator, or a throw). */
  method GenFnCall(f: seq<Value> -> Outcome<Interpreters.Generator>, args: seq<Value>)
    returns (r: Outcome<Res>, fed: seq<Value>, seen: seq<Interpreters.Iter>, returnArgs: seq<Value>)
    ensures f(args).Fulfilled? ==> Interpreters.Trace(r, fed, seen, returnArgs) == Interpreters.RunTrace(f(args).value)
    ensures f(args).Rejected? ==> r == Rejected(f(args).reason) && fed == [] && seen == [] && returnArgs == []
  {
    r, fed, seen, returnArgs := Interpreters.Run(f(args));
  }

  /** `asyncGenFn(f)(...args)`: `runAsync` with the factory
      `() => f(...args)`; a throw of that call rejects the result. */
  method AsyncGenFnCall(f: seq<Value> -> Outcome<Interpreters.Generator>, args: seq<Value>)
    returns (rp: ResultPromise, fed: seq<Value>, seen: seq<Interpreters.Iter>, returnArgs: seq<Value>)
    ensures f(args).Fulfilled? ==>
              Interpreters.Trace(rp.Settle(), fed, seen, returnArgs) == Interpreters.RunAsyncTrace(f(args).value)
    ensures f(args).Rejected? ==> rp.Settle() == Rejected(f(args).reason) && fed == [] && seen == [] && returnArgs == []
  {
    rp, fed, seen, returnArgs := Interpreters.RunAsync(f(args));
  }
}
