/** The synchronous success/failure operations the deferred wrappers and
    the interpreters call.  The file that defines them is not part of this
    model: these definitions are ASSUMED from the operations' documented
    meaning (a callback runs only on the matching variant, `unwrap` and
    `expect` panic on the wrong one), and every callback may throw.
 */
module ResultOps {
  import opened Values

  function And(self: Res, other: Res): Res
  {
    if self.Ok? then other else self
  }

  function AndThen(self: Res, f: Value -> Outcome<Res>): Outcome<Res>
  {
    match self
    case Ok(v) => f(v)
    case Err(e) => Fulfilled(Err(e))
  }

  function Or(self: Res, other: Res): Res
  {
    if self.Ok? then self else other
  }

  function OrElse(self: Res, f: Value -> Outcome<Res>): Outcome<Res>
  {
    match self
    case Ok(v) => Fulfilled(Ok(v))
    case Err(e) => f(e)
  }

  function Map(self: Res, f: Callback): Outcome<Res>
  {
    match self
    case Ok(v) => MapOutcome(f(v), (u: Value) => Ok(u))
    case Err(e) => Fulfilled(Err(e))
  }

  function MapErr(self: Res, f: Callback): Outcome<Res>
  {
    match self
    case Ok(v) => Fulfilled(Ok(v))
    case Err(e) => MapOutcome(f(e), (u: Value) => Err(u))
  }

  /** Runs `f` on the payload for its effect only; a throw propagates. */
  function Inspect(self: Res, f: Callback): Outcome<Res>
  {
    match self
    case Ok(v) => Bind(f(v), (_: Value) => Fulfilled(self))
    case Err(_) => Fulfilled(self)
  }

  function InspectErr(self: Res, f: Callback): Outcome<Res>
  {
    match self
    case Ok(_) => Fulfilled(self)
    case Err(e) => Bind(f(e), (_: Value) => Fulfilled(self))
  }

  function Unwrap(self: Res): Outcome<Value>
  {
    match self
    case Ok(v) => Fulfilled(v)
    case Err(e) => Rejected(PanicValue(AccessPanic(None, e)))
  }

  function UnwrapErr(self: Res): Outcome<Value>
  {
    match self
    case Ok(v) => Rejected(PanicValue(AccessPanic(None, v)))
    case Err(e) => Fulfilled(e)
  }

  function Expect(self: Res, message: string): Outcome<Value>
  {
    match self
    case Ok(v) => Fulfilled(v)
    case Err(e) => Rejected(PanicValue(AccessPanic(Some(message), e)))
  }

  function ExpectErr(self: Res, message: string): Outcome<Value>
  {
    match self
    case Ok(v) => Rejected(PanicValue(AccessPanic(Some(message), v)))
    case Err(e) => Fulfilled(e)
  }

  function UnwrapOr(self: Res, default: Value): Value
  {
    match self
    case Ok(v) => v
    case Err(_) => default
  }

  function UnwrapOrElse(self: Res, f: Callback): Outcome<Value>
  {
    match self
    case Ok(v) => Fulfilled(v)
    case Err(e) => f(e)
  }

  function MapOr(self: Res, default: Value, f: Callback): Outcome<Value>
  {
    match self
    case Ok(v) => f(v)
    case Err(_) => Fulfilled(default)
  }

  function MapOrElse(self: Res, default: Callback, f: Callback): Outcome<Value>
  {
    match self
    case Ok(v) => f(v)
    case Err(e) => default(e)
  }

  function Match(self: Res, ok: Callback, err: Callback): Outcome<Value>
  {
    match self
    case Ok(v) => ok(v)
    case Err(e) => err(e)
  }

  /** Returns the payload of an `Ok`; an `Err` throws its error, surfacing
      a recoverable failure as an exception at a boundary. */
  function Tap(self: Res): Outcome<Value>
  {
    match self
    case Ok(v) => Fulfilled(v)
    case Err(e) => Rejected(e)
  }
}
