# ruts: interpreters, error records and deferred containers in Dafny

This project models the core of `ruts`, a TypeScript library of success/failure
(`Result`: `Ok`/`Err`) and present/absent (`Option`: `Some`/`None`) containers.
It covers four parts:

- **The generator-driven interpreters `run` and `runAsync`**, in `run.dfy`.
  - `run` drives a generator in a loop. It feeds back the payload of each yielded `Ok`, stops at the first `Err` (calling the generator's `return`), and wraps the first non-container value in `Ok`.
  - `runAsync` does the same through a self-re-chaining continuation `andThen`. It converts each yielded value with `toPromiseResult`, honours `done`, and keeps going after a plain yielded value.
  - The generator is a `Producer` object. It records the inputs `next` was fed, whether it has finished, and the arguments `return` was called with.
  - What the generator does on each resume is a function of its inputs so far. A step budget bounds how often it can yield.
  - `Run` is a `while` loop over the producer. `RunAsync` starts the recursive method `AndThen`, its continuation.
  - Each interpreter receives what calling the factory `fn()` did: a generator, or a throw. A throw of `fn()` leaves `run` before any resume, and makes `runAsync`'s result reject.
  - Both are proved equal to the trace functions `RunCalled` and `RunAsyncCalled`. These are built on `RunTrace` and `RunAsyncTrace`. The interpreters' promises are then lemmas about those functions.
- **Error records**, in `result_error.dfy`.
  - How a `ResultError` (and its subclass `StdError`) is built from a message or from a host error.
  - Its derived `originName`, `expandedName`, `toString` and `stack`.
  - The three-way `toStdError` conversion.
- **The deferred container wrappers.**
  - `ResultPromise` (`result_promise.dfy`), `OptionPromise` (`option_promise.dfy`) and `PromiseResult` (`promise_result.dfy`).
  - A promise is reduced to the outcome it settles to, `Fulfilled(value)` or `Rejected(reason)`.
  - Every wrapper method is a function of that outcome: "settle, then apply the synchronous operation".
  - Laws proved for all three wrappers: map identity and map fusion, and callbacks ignored on rejection.
  - For `ResultPromise` and `OptionPromise`, also: the `andThen` identities and associativity, and self settled before other in `and`/`or` (and `xor` for `OptionPromise`).
  - For `ResultPromise` only: a wrapper of a wrapper behaves as the inner one.
  - For `PromiseResult`, which has no `andThen`: the `finally` and `tap` laws.
- **The function adapters `fn`, `asyncFn`, `genFn`, `asyncGenFn`**, in `fn.dfy`.

Supporting modules:

- `values.dfy` holds the universe of run-time values. The library is dynamically typed, so containers, promises, errors and panics are one datatype.
- `promises.dfy` models the host's promise protocol: `await`, `then`, `catch`, `finally`.
- `result_ops.dfy` and `option_ops.dfy` define the synchronous `Result`/`Option` operations the wrappers call. **These are assumed dependencies.** The files that define them (`result.ts`, `option.ts`, `panic.ts`) are not part of this model. They are written from the operations' documented meaning, so every property that passes through them is relative to these definitions.

Points where the model follows the code rather than the documentation:

- **`toPromiseResult`'s `ResultPromise` branch is never reached.** The host's `await` already follows a `ResultPromise` (it is a thenable), so the branch at src/run.ts:37-38 is dead (`Interpreters.AwaitedNeverResultPromise`).
- **`toStdError` of a `ResultError` panics.** `ResultError` implements the error interface but does not extend the host's `Error` class. So handing a `ResultError` to `toStdError` makes it throw an `InvalidErrorPanic` rather than wrap it (`Errors.ToStdErrorOfResultError`).
- **The name is `"StdError"`.** Three tests of the test file (test/result_error.test.ts:11, 25 and 39) assert that `name` is `"ResultError"`. The class as written (src/result_error.ts:52-54) has `name = "StdError"`, and the model follows the class. The same tests also compare `error.tag` with `StdError.tag` (lines 12, 26 and 40). The class defines no `tag`, so both sides are `undefined` and those assertions agree with the class. The model has no `tag` field.

## Model

| member | source | states |
|---|---|---|
| Interpreters.IsResult | src/run.ts:5-7 | true for a container instance; a container is not a thenable, so `await` leaves it as it is |
| Interpreters.NextStep | src/run.ts:16 | the host's `gen.next(x)`: `x` is recorded; a finished generator answers `{done: true, value: undefined}`; a throw finishes the generator; `done` and finishing agree; the resume after the budget is final; otherwise the body's answer |
| Interpreters.Producer.constructor | src/run.ts:12 | a fresh generator has been fed nothing, is not finished and has had no `return` call |
| Interpreters.Producer.Next | src/run.ts:16 | `next(x)` records `x`; a finished generator answers `{done: true, value: undefined}`; a throwing body finishes it; resume `limit + 1` is final; `return` arguments are unchanged |
| Interpreters.Producer.Return | src/run.ts:20 | `return(x)` records `x` once and finishes the generator; the fed inputs are unchanged |
| Interpreters.RunFrom | src/run.ts:13-28 | the reference definition of the loop from a generator state: it only appends to the fed inputs (first the current input) and to the observed iterations, and it calls `return` at most once, only with an `Err` result |
| Interpreters.RunTrace | src/run.ts:12-28 | the loop on a fresh generator: its first resume is fed `undefined` (`Ok().unwrap()`) |
| Interpreters.RunCalled | src/run.ts:9-29 | a throw of `fn()` is the whole run, with nothing fed; otherwise the loop on the generator it returned |
| Interpreters.Run | src/run.ts:9-29 | calls `fn()`, whose throw leaves `run` with nothing fed; then the `while (!done)` loop over a fresh generator returns the outcome, fed inputs, observed iterations and `return` arguments of `RunCalled` |
| Interpreters.RunFromShape | src/run.ts:14-28 | every trace of the loop: each resume fed the payload of the `Ok` just before it; every observed value but the last an `Ok`; the end is an `Err` (the `return` argument when there is one), a non-container wrapped in `Ok`, or a throw of the generator |
| Interpreters.RunProperties | src/run.ts:14-28 | first resume fed `undefined`; later resumes fed the payload of the previous `Ok`; the result is either `Ok` of a non-container last value or the first `Err`, never a yielded `Ok`; `return` is called exactly once with that `Err` if the generator has one, and never otherwise; `next` is not called after it |
| Interpreters.ToPromiseResult | src/run.ts:33-41 | a container goes to itself, a `ResultPromise` to its promise's outcome, a promise to its rejection or to the conversion of its value, any other value to `Ok(value)` |
| Interpreters.AwaitedNeverResultPromise | src/run.ts:34-38 | what `await` fulfils with is never a `ResultPromise`, so the second branch is not reached |
| Interpreters.AndThen | src/run.ts:49-60 | the continuation resumes the generator with the payload, converts and settles the step, returns it when final, calls `return` (raw yielded value) and returns on a non-final `Err`, and re-chains itself otherwise; its outcome and the generator's record are those of `RunAsyncFrom` |
| Interpreters.RunAsyncFrom | src/run.ts:48-59 | the reference definition of the chain from a generator state: it only appends to the fed inputs (first the current payload) and to the observed steps, and it calls `return` at most once, only with an `Err` result |
| Interpreters.RunAsyncTrace | src/run.ts:47-59 | the chain on a fresh generator: its first resume is fed `undefined` (`Ok().unwrap()`) |
| Interpreters.RunAsyncCalled | src/run.ts:43-64 | a throw of `fn()` inside `exec` rejects the result, with nothing fed; otherwise the chain on the generator it returned |
| Interpreters.RunAsync | src/run.ts:43-64 | calls `fn()`, whose throw gives a rejecting `ResultPromise` with nothing fed; then the chain from `Ok()` on a fresh generator yields a `ResultPromise` settling to `RunAsyncCalled`'s outcome, with its fed inputs, steps and `return` arguments |
| Interpreters.RunAsyncFromShape | src/run.ts:48-59 | every trace of the chain: each resume fed the converted payload of the step before; steps before the last all continued; the end is a throw on resume or the first step that did not continue, whose conversion is the result |
| Interpreters.RunAsyncProperties | src/run.ts:48-59 | the chain starts from `Ok()` (first input `undefined`); each later input is the converted payload of the previous step; a final step's conversion is returned as-is even when an `Err`, without `return`; a non-final `Err` calls `return` once with the yielded value and ends the run; an `Ok` result comes only from a final step; a throw on a resume, or a step whose conversion rejects, rejects the result without a `return` call |
| Interpreters.PlainYieldContinues | src/run.ts:51-59 | a plain non-container yield mid-sequence continues the chain and is itself fed back |
| Interpreters.DivisionStopsAtErr | src/run.ts:17-22 | a generator yielding `Ok(5)`, then an `Err`, then a third step: both `run` and `runAsync` feed `undefined` then `5`, end with the `Err`, call `return` once with it, and never run the third step |
| Interpreters.PlainYieldContrast | src/run.ts:23-26 | `run` ends at a plain yielded `7` as `Ok(7)` after one resume, while `runAsync` feeds `7` back and ends at the final value |
| Interpreters.FinalOkContrast | src/run.ts:15-22 | `run` ignores `done`: a final `Ok(1)` is fed back to the finished generator and the run ends with `Ok(undefined)`; `runAsync` returns the final `Ok(1)` |
| Interpreters.FinalErrContrast | src/run.ts:52-57 | a final `Err` ends both runs; only `run` calls `return` with it |
| Errors.Construct | src/result_error.ts:11-24 | from a message (default `""`): that message, no origin; from an error: its message and the error as origin; the origin's stack is kept when truthy, else the engine's fresh stack |
| Errors.NewStdError | src/result_error.ts:52-54 | a `StdError` is a record built by the constructor with `name` `"StdError"` |
| Errors.OriginName | src/result_error.ts:39-41 | the origin's name, or `"Error"` without an origin |
| Errors.ExpandedName | src/result_error.ts:35-37 | the own name when the origin name is `"Error"`, otherwise `name + " from " + originName` |
| Errors.ToString | src/result_error.ts:43-45 | the expanded name, followed by `": "` and the message |
| Errors.Stack | src/result_error.ts:30-33 | an absent stored stack stays absent; a leading origin name is replaced by the expanded name; any other stored stack is returned unchanged |
| Errors.ToStdError | src/result_error.ts:58-66 | a panic is rethrown unchanged; any other host error is wrapped as the origin of a new `StdError`; every other value throws an `InvalidErrorPanic` carrying it; it throws only panics |
| Errors.StackHeaderIsToString | src/result_error.ts:30-45 | when the stored stack begins with the origin's header line, the rewritten stack begins with `toString()` |
| Errors.NoArgumentStdError | src/result_error.ts:11 | `new StdError()` uses the default empty message: message `""`, no origin, the engine's fresh stack, and `toString()` is `StdError: ` |
| Errors.MessageStdErrorStack | test/result_error.test.ts:5-30 | given an engine stack headed `Error: <message>`, a `StdError` from that message has that message, no origin, and a stack headed `StdError: <message>` |
| Errors.WrappedStdErrorStack | test/result_error.test.ts:32-47 | a `StdError` wrapping an error named `Error` whose stack is headed `Error: <message>` keeps its message, origin and stack, and its stack is headed `StdError: <message>` |
| Errors.WrappedOtherClassNames | src/result_error.ts:35-45 | wrapping an error whose `name` is not `"Error"`, with its stack headed `<name>: <message>`, shows `StdError from <name>: <message>` in `toString()` and heads the stack with it |
| Errors.ToStdErrorRoundTrip | test/result_error.test.ts:51-57 | converting a host error gives a `StdError` whose origin, origin name and message are the error's |
| Errors.ToStdErrorRejectsNonErrors | test/result_error.test.ts:59-72 | a panic is rethrown; `0`, `""`, `true`, `undefined`, `null`, `{}` and `[]` throw an `InvalidErrorPanic` |
| Errors.ToStdErrorOfResultError | src/result_error.ts:58-66 | a `ResultError` is not a host error, so converting it throws an `InvalidErrorPanic` |
| Promises.Await | src/run.ts:34 | a non-thenable is itself; a rejected promise gives its own reason; a promise fulfilled with a value gives what awaiting that value gives, so it is followed to a non-thenable value or a rejection; a `ResultPromise` settles as its promise |
| Promises.Then | src/result_promise.ts:12 | a missing callback passes the outcome on; a present one is applied and what it returns is adopted, what it throws rejects |
| Promises.Catch | src/result_promise.ts:16 | a fulfilled outcome passes through; only a rejection reaches the callback |
| Promises.Finally | src/result_promise.ts:19-30 | a returning callback keeps the value or the reason; a throwing one rejects with what it threw |
| Values.ResultPromise.Settle | src/result_promise.ts:4-13 | a wrapper over a host promise settles as that promise; a wrapper over another wrapper settles as the inner one, which is what `then` reaches |
| ResultPromises.Deferred | src/result_promise.ts:4-6 | a wrapper over a host promise settles as that promise |
| ResultPromises.AwaitApply | src/result_promise.ts:42-44 | an `async` accessor rejects with the wrapper's reason, or adopts the synchronous accessor's outcome on the settled container |
| ResultPromises.Then | src/result_promise.ts:8-13 | `then` is the host `then` on what the wrapper settles to, however deeply wrappers are nested |
| ResultPromises.Catch | src/result_promise.ts:15-17 | a fulfilled container is passed on unchanged; only a rejection reaches the callback |
| ResultPromises.Finally | src/result_promise.ts:19-30 | the callback runs on either outcome; the value or reason is kept unless it throws |
| ResultPromises.And | src/result_promise.ts:32-36 | self's rejection wins; then other's rejection; otherwise the synchronous `and` of both containers |
| ResultPromises.AndThen | src/result_promise.ts:38-40 | a rejection passes through; otherwise the synchronous `andThen` of the settled container |
| ResultPromises.Expect | src/result_promise.ts:42-44 | rejection passes through; otherwise the synchronous `expect`, whose panic rejects |
| ResultPromises.ExpectErr | src/result_promise.ts:46-48 | rejection passes through; otherwise the synchronous `expectErr`, whose panic rejects |
| ResultPromises.Inspect | src/result_promise.ts:50-52 | rejection passes through; otherwise the synchronous `inspect` |
| ResultPromises.InspectErr | src/result_promise.ts:54-56 | rejection passes through; otherwise the synchronous `inspectErr` |
| ResultPromises.Map | src/result_promise.ts:58-60 | rejection passes through; otherwise the synchronous `map` |
| ResultPromises.MapErr | src/result_promise.ts:62-64 | rejection passes through; otherwise the synchronous `mapErr` |
| ResultPromises.MapOr | src/result_promise.ts:66-68 | rejection passes through; otherwise the adopted synchronous `mapOr` |
| ResultPromises.MapOrElse | src/result_promise.ts:70-72 | rejection passes through; otherwise the adopted synchronous `mapOrElse` |
| ResultPromises.Or | src/result_promise.ts:74-78 | self's rejection wins; then other's rejection; otherwise the synchronous `or` of both containers |
| ResultPromises.OrElse | src/result_promise.ts:80-82 | rejection passes through; otherwise the synchronous `orElse` |
| ResultPromises.Unwrap | src/result_promise.ts:84-86 | rejection passes through; otherwise the adopted synchronous `unwrap`, whose panic rejects |
| ResultPromises.UnwrapErr | src/result_promise.ts:88-90 | rejection passes through; otherwise the adopted synchronous `unwrapErr` |
| ResultPromises.UnwrapOr | src/result_promise.ts:92-94 | rejection passes through; otherwise the awaited synchronous `unwrapOr` |
| ResultPromises.UnwrapOrElse | src/result_promise.ts:96-98 | rejection passes through; otherwise the adopted synchronous `unwrapOrElse` |
| ResultPromises.Match | src/result_promise.ts:100-102 | rejection passes through; otherwise the adopted synchronous `match` |
| ResultPromises.WrappedBehavesAsInner | src/result_promise.ts:4-13 | a `ResultPromise` wrapping another settles and answers `then` as the inner one |
| ResultPromises.RejectionIgnoresCallbacks | src/result_promise.ts:38-102 | on a rejected wrapper, `map`, `mapErr`, `inspect`, `inspectErr`, `andThen`, `orElse`, `mapOrElse`, `unwrapOrElse` and `match` give the same outcome whatever callbacks they get, each callback varied on its own |
| ResultPromises.SelfRejectionWins | src/result_promise.ts:32-36 | when self rejects, `and` and `or` do not depend on the other wrapper |
| ResultPromises.CombinatorsAwaitOther | src/result_promise.ts:74-78 | unlike the synchronous `and` on `Err` and `or` on `Ok`, the deferred ones still wait for other and reject with its reason |
| ResultPromises.MapIdentity | src/result_promise.ts:58-64 | `map` and `mapErr` with the identity keep the outcome |
| ResultPromises.MapFusion | src/result_promise.ts:58-60 | two `map`s equal one `map` with the composed callback |
| ResultPromises.AndThenLeftIdentity | src/result_promise.ts:38-40 | `andThen` on a wrapper settling to `Ok(v)` is `f(v)` |
| ResultPromises.AndThenRightIdentity | src/result_promise.ts:38-40 | `andThen` with the `Ok` constructor keeps the outcome |
| ResultPromises.AndThenAssociative | src/result_promise.ts:38-40 | two chained `andThen`s equal one with the composed step |
| ResultPromises.ShortCircuits | src/result_promise.ts:80-82 | an `Err` skips every `andThen` callback and an `Ok` every `orElse` callback |
| ResultPromises.AccessorPanicRejects | src/result_promise.ts:84-90 | `unwrap`/`expect` on `Err` and `unwrapErr`/`expectErr` on `Ok` reject with the access panic |
| OptionPromises.AwaitApply | src/option_promise.ts:76-78 | an `async` accessor rejects with the wrapper's reason, or adopts the synchronous accessor's outcome |
| OptionPromises.Then | src/option_promise.ts:12-17 | `then` is the host `then` on what the wrapper settles to |
| OptionPromises.Catch | src/option_promise.ts:19-21 | a fulfilled option passes through; only a rejection reaches the callback |
| OptionPromises.Finally | src/option_promise.ts:23-34 | the callback runs on either outcome; the value or reason is kept unless it throws |
| OptionPromises.OkOr | src/option_promise.ts:39-41 | a `ResultPromise` settling to the synchronous `okOr` of the settled option |
| OptionPromises.OkOrElse | src/option_promise.ts:46-48 | a `ResultPromise` settling to the synchronous `okOrElse` of the settled option |
| OptionPromises.And | src/option_promise.ts:53-57 | self's rejection wins; then other's; otherwise the synchronous `and` |
| OptionPromises.AndThen | src/option_promise.ts:62-64 | rejection passes through; otherwise the synchronous `andThen` |
| OptionPromises.Inspect | src/option_promise.ts:69-71 | rejection passes through; otherwise the synchronous `inspect` |
| OptionPromises.Expect | src/option_promise.ts:76-78 | rejection passes through; otherwise the adopted synchronous `expect` |
| OptionPromises.Filter | src/option_promise.ts:83-85 | rejection passes through; otherwise the synchronous `filter` |
| OptionPromises.Flatten | src/option_promise.ts:90-92 | for a promise of an option of an option: rejection passes through; otherwise the synchronous `flatten` |
| OptionPromises.Map | src/option_promise.ts:97-99 | rejection passes through; otherwise the synchronous `map` |
| OptionPromises.MapOr | src/option_promise.ts:104-106 | rejection passes through; otherwise the adopted synchronous `mapOr` |
| OptionPromises.MapOrElse | src/option_promise.ts:111-113 | rejection passes through; otherwise the adopted synchronous `mapOrElse` |
| OptionPromises.Or | src/option_promise.ts:118-122 | self's rejection wins; then other's; otherwise the synchronous `or` |
| OptionPromises.OrElse | src/option_promise.ts:127-129 | rejection passes through; otherwise the synchronous `orElse` |
| OptionPromises.Unwrap | src/option_promise.ts:134-136 | rejection passes through; otherwise the adopted synchronous `unwrap` |
| OptionPromises.UnwrapOr | src/option_promise.ts:141-143 | rejection passes through; otherwise the awaited synchronous `unwrapOr` |
| OptionPromises.UnwrapOrElse | src/option_promise.ts:148-150 | rejection passes through; otherwise the adopted synchronous `unwrapOrElse` |
| OptionPromises.Xor | src/option_promise.ts:155-159 | self's rejection wins; then other's; otherwise the synchronous `xor` |
| OptionPromises.Match | src/option_promise.ts:164-166 | rejection passes through; otherwise the adopted synchronous `match` |
| OptionPromises.RejectionIgnoresCallbacks | src/option_promise.ts:46-166 | on a rejected wrapper, `okOrElse`, `andThen`, `inspect`, `filter`, `map`, `mapOrElse`, `orElse`, `unwrapOrElse` and `match` do not depend on their callbacks or default thunks, each varied on its own |
| OptionPromises.SelfRejectionWins | src/option_promise.ts:53-57 | when self rejects, `and`, `or` and `xor` do not depend on the other wrapper |
| OptionPromises.XorSymmetry | src/option_promise.ts:155-159 | `xor` of two settled options is symmetric; when both reject, the receiver's reason wins |
| OptionPromises.CombinatorsAwaitOther | src/option_promise.ts:118-122 | `and` on `None` and `or` on `Some` still wait for the other wrapper and reject with its reason |
| OptionPromises.FilterExample | src/option_promise.ts:83-85 | `Some(5).filter(x > 10)` settles to `None`; `Some(15)` passes |
| OptionPromises.OkOrExample | src/option_promise.ts:39-41 | `None.okOr("missing")` settles to `Err("missing")`; `Some(1)` to `Ok(1)` |
| OptionPromises.FlattenExample | src/option_promise.ts:90-92 | `Some(Some(3))` flattens to `Some(3)`; `Some(None)` and `None` to `None` |
| OptionPromises.MapIdentity | src/option_promise.ts:97-99 | `map` with the identity keeps the wrapper |
| OptionPromises.AndThenIdentities | src/option_promise.ts:62-64 | `andThen` with `Some` keeps the wrapper; `andThen` on `Some(v)` is `f(v)` |
| OptionPromises.MapFusion | src/option_promise.ts:97-99 | two `map`s equal one `map` with the composed callback |
| OptionPromises.AndThenAssociative | src/option_promise.ts:62-64 | two chained `andThen`s equal one with the composed step |
| PromiseResults.AwaitApply | src/promise_result.ts:46-48 | an `async` accessor rejects with the wrapper's reason, or adopts the synchronous accessor's outcome |
| PromiseResults.Then | src/promise_result.ts:22-27 | both callbacks are forwarded to the wrapped promise unchanged |
| PromiseResults.Catch | src/promise_result.ts:29-31 | a fulfilled container passes through; only a rejection reaches the callback |
| PromiseResults.Finally | src/promise_result.ts:33-44 | the callback runs on either outcome; the value or reason is kept unless it throws |
| PromiseResults.Expect | src/promise_result.ts:46-48 | rejection passes through; otherwise the adopted synchronous `expect` |
| PromiseResults.ExpectErr | src/promise_result.ts:50-52 | rejection passes through; otherwise the adopted synchronous `expectErr` |
| PromiseResults.Map | src/promise_result.ts:54-56 | a new wrapper: rejection passes through; otherwise the synchronous `map` |
| PromiseResults.MapErr | src/promise_result.ts:58-60 | a new wrapper: rejection passes through; otherwise the synchronous `mapErr` |
| PromiseResults.MapOr | src/promise_result.ts:62-64 | rejection passes through; otherwise the adopted synchronous `mapOr` |
| PromiseResults.MapOrElse | src/promise_result.ts:66-68 | rejection passes through; otherwise the adopted synchronous `mapOrElse` |
| PromiseResults.Unwrap | src/promise_result.ts:70-72 | rejection passes through; otherwise the adopted synchronous `unwrap` |
| PromiseResults.UnwrapErr | src/promise_result.ts:74-76 | rejection passes through; otherwise the adopted synchronous `unwrapErr` |
| PromiseResults.UnwrapOr | src/promise_result.ts:78-80 | rejection passes through; otherwise the awaited synchronous `unwrapOr` |
| PromiseResults.UnwrapOrElse | src/promise_result.ts:82-84 | rejection passes through; otherwise the adopted synchronous `unwrapOrElse` |
| PromiseResults.Match | src/promise_result.ts:86-88 | rejection passes through; otherwise the adopted synchronous `match` |
| PromiseResults.Tap | src/promise_result.ts:90-92 | rejection passes through; otherwise the adopted synchronous `tap` |
| PromiseResults.TapSurfacesErr | src/promise_result.ts:90-92 | `tap` on `Err(e)` rejects with `e`; on `Ok(v)` of a plain value fulfils with `v` |
| PromiseResults.RejectionIgnoresCallbacks | src/promise_result.ts:54-88 | on a rejected wrapper, `map`, `mapErr`, `mapOrElse`, `unwrapOrElse` and `match` do not depend on their callbacks, each varied on its own |
| PromiseResults.MapIdentity | src/promise_result.ts:54-60 | `map` and `mapErr` with the identity keep the wrapper |
| PromiseResults.MapFusion | src/promise_result.ts:54-60 | two `map`s (or two `mapErr`s) equal one with the composed callback |
| PromiseResults.FinallyLaws | src/promise_result.ts:33-44 | a returning callback makes `finally` transparent; a throwing one replaces even a rejection's reason |
| Adapters.Fn | src/fn.ts:19-23 | `fn(f)` answers every argument list as `f` does |
| Adapters.AsyncFn | src/fn.ts:46-50 | each call runs `f` once with the same arguments and wraps what it returns in a `ResultPromise` that settles as it does; a synchronous throw propagates |
| Adapters.GenFnCall | src/fn.ts:70-76 | `genFn(f)(...args)` is `run` on the generator `f(...args)`; when that call throws, the throw leaves `run` with nothing fed |
| Adapters.AsyncGenFnCall | src/fn.ts:96-106 | `asyncGenFn(f)(...args)` is `runAsync` on the generator `f(...args)`; when that call throws, the result rejects with nothing fed |

Helpers with no row: `Interpreters.NextDecreases` (the budget measure
decreases on every unfinished resume); `Interpreters.RunFedStep`,
`Interpreters.RunThrowShape` and `Interpreters.RunStopShape` (steps of the
proof of `RunFromShape`); and `Interpreters.AsyncFedStep`,
`Interpreters.AsyncThrowShape`, `Interpreters.ThrewShape` and
`Interpreters.AsyncStopShape` (steps of the proof of `RunAsyncFromShape`).

## Left out

- Promise scheduling: microtask order and timing are not modelled. Only what a chain settles to is.
- Type-level inference: `InferOk`, `InferErr` and the overload signatures of `asyncFn` carry no run-time content.
- Engine stack text: what `new Error(message).stack` contains depends on the engine, so it is the parameter `engineStack`.
- Errors.MessageStdErrorStack: holds only for an engine stack whose first line is `Error: <message>`. An engine that writes a bare `Error` header for an empty message is not covered.
- Errors.WrappedStdErrorStack: holds only for an origin whose stack is headed `Error: <message>`. The getter replaces only the leading origin name, so an origin stack headed by a bare `Error` gives a stack headed by a bare `StdError`. That case is not covered.
- Errors.WrappedOtherClassNames: only the origin's `name` property decides the "from" part. A subclass of `Error` that keeps the name `"Error"` shows no "from", which `Errors.ToStdErrorRoundTrip` covers.
- The `inspectSymbol` hook (src/result_error.ts:47-49) is left out. It returns the `stack` getter's value, which is modelled.
- Errors.Stack: the regular expression `^<originName>` is modelled as a literal-prefix match. An origin name containing regular-expression metacharacters, and `$` patterns in the replacement, are not modelled.
- Errors.Construct: a `ResultError` or a panic given as the constructor's argument is not modelled. Only a message and a plain host error are.
- PromiseResults.Expect: the `Panic` form of the argument (src/promise_result.ts:46-52) is not modelled. Only a message string is.
- PromiseResults.ExpectErr: the `Panic` argument is not modelled either, for the same reason.
- Callbacks are pure functions from a value to an outcome (returned or thrown). A callback's side effects, and how often it runs, are therefore not observable. "Exactly once" for `finally` is represented by one evaluation in the model.
- A host promise is reduced to its settled outcome. A callback returning a thenable is adopted through `Promises.Await`. A thenable that never settles is not modelled.
- A `return` method that throws is not modelled. Neither is a generator whose `next` answers with a non-object.
- The generator is a function of the inputs it has been fed, plus a step budget. Resume number `limit + 1` is forced to be final, which makes both interpreters terminate. A generator that yields forever is outside the model.
- The synchronous `Result`, `Option` and panic classes (`result.ts`, `option.ts`, `panic.ts`) are not part of this model. `ResultOps` and `OptionOps` are assumed definitions of the operations the wrappers call, so the wrapper contracts are stated relative to them.
- Numbers: JavaScript numbers are floating point, but the model's `Num` holds an unbounded integer. Only the worked examples use numbers (small integers such as `5`, `7` and `15`, and the comparison `x > 10`). No contract depends on floating-point behaviour, such as `NaN`, infinities or rounding.
- The iterator protocol behind `yield* Ok(...)` (the containers' `Symbol.iterator`) is not part of this model. The generator yields the container itself.
- `PromiseResult` has no `and`, `andThen`, `or` or `orElse` (its interface, src/promise_result.ts:4-17, lists none), and the model defines none.
