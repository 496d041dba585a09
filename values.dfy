/** The universe of run-time values the library handles.  The library is
    written in a dynamically typed language, so containers, promises,
    errors and panics are all values of one datatype; the static type
    parameters of the original (`Result<T, E>`, `Option<T>`) carry no
    run-time content and are not modelled.
 */
module Values {

  /** Present/absent container (`Some` / `None`). */
  datatype Option<+T> = None | Some(value: T)

  /** Success/failure container (`Ok` / `Err`). */
  datatype Result<+T, +E> = Ok(value: T) | Err(error: E)

  /** How a computation ends.  For a promise: fulfilled with a value or
      rejected with a reason.  For a synchronous call: it returned a value
      or it threw a reason.  Both readings are used, and `await` turns the
      first into the second.
   */
  datatype Outcome<+T> = Fulfilled(value: T) | Rejected(reason: Value)

  /** A non-recoverable panic.  The panic classes themselves are not part
      of this model; a panic is an opaque tagged value that records why it
      was raised.
   */
  datatype Panic =
    | UserPanic(message: string)
      /** raised by `unwrap`, `unwrapErr`, `expect`, `expectErr` on the wrong
          variant: the caller's message for `expect*`, and the payload found */
    | AccessPanic(expected: Option<string>, payload: Value)
      /** raised by the error conversion for a value that is not an error */
    | InvalidErrorPanic(offender: Value)

  /** A native error object (an instance of the host's `Error` class that
      is not a panic).  An absent or empty `stack` is falsy. */
  datatype ErrorObj = ErrorObj(name: string, message: string, stack: Option<string>)

  /** The record a `ResultError` subclass instance holds: the subclass's
      `name`, its `message`, the wrapped `origin` error if any, and the
      stored stack text (the private `_stack` field). */
  datatype ResultError = ResultError(name: string, message: string, origin: Option<ErrorObj>,
                                     storedStack: Option<string>)

  /** What a `ResultPromise` was built from: a host promise of a `Result`,
      or another `ResultPromise`. */
  datatype PromiseSource = Native(outcome: Outcome<Result<Value, Value>>) | Wrapped(inner: ResultPromise)

  /** A deferred success/failure container. */
  datatype ResultPromise = ResultPromise(promise: PromiseSource) {
    /** The outcome the wrapped promise settles to: `then` forwards to the
        wrapped promise, which may itself be a `ResultPromise`. */
    function Settle(): (o: Outcome<Result<Value, Value>>)
      ensures promise.Native? ==> o == promise.outcome
      ensures promise.Wrapped? ==> o == promise.inner.Settle()
    {
      match promise
      case Native(o) => o
      case Wrapped(inner) => inner.Settle()
    }
  }

  datatype Value =
    | Undefined
    | Null
    | Bool(b: bool)
    | Num(n: int)
    | Str(s: string)
      /** any other plain object or array: `{}`, `[]`, ... */
    | Obj
    | ErrorValue(e: ErrorObj)
    | PanicValue(p: Panic)
    | ResultErrorValue(re: ResultError)
    | Res(r: Result<Value, Value>)
    | Opt(o: Option<Value>)
    | ResPromise(rp: ResultPromise)
      /** a host promise (or other thenable) and the outcome it settles to */
    | Promise(outcome: Outcome<Value>)

  type Res = Result<Value, Value>
  type Opt = Option<Value>

  /** A callback the library invokes: it returns a value or throws. */
  type Callback = Value -> Outcome<Value>
  /** A callback invoked with no argument. */
  type Thunk = () -> Outcome<Value>

  /** The host's truthiness of an optional string: absent and empty are falsy. */
  predicate Truthy(s: Option<string>)
  {
    s.Some? && s.value != ""
  }

  /** Sequencing on outcomes: apply `f` to a fulfilled value, pass a
      rejection through without calling `f`. */
  function Bind<A, B>(o: Outcome<A>, f: A -> Outcome<B>): Outcome<B>
  {
    match o
    case Fulfilled(a) => f(a)
    case Rejected(e) => Rejected(e)
  }

  /** Wraps a value's outcome the way `then` without callbacks would. */
  function MapOutcome<A, B>(o: Outcome<A>, f: A -> B): Outcome<B>
  {
    match o
    case Fulfilled(a) => Fulfilled(f(a))
    case Rejected(e) => Rejected(e)
  }
}
