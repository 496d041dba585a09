/** The synchronous present/absent operations the deferred wrapper calls.
    The file that defines them is not part of this model: these
    definitions are ASSUMED from the operations' documented meaning, and
    every callback may throw.
 */
module OptionOps {
  import opened Values

  /** The two callbacks of `match`. */
  datatype OptionMatch = OptionMatch(some: Callback, none: Thunk)

  function OkOr(self: Opt, err: Value): Res
  {
    match self
    case Some(v) => Ok(v)
    case None => Err(err)
  }

  function OkOrElse(self: Opt, err: Thunk): Outcome<Res>
  {
    match self
    case Some(v) => Fulfilled(Ok(v))
    case None => MapOutcome(err(), (e: Value) => Err(e))
  }

  function And(self: Opt, other: Opt): Opt
  {
    if self.Some? then other else None
  }

  function AndThen(self: Opt, f: Value -> Outcome<Opt>): Outcome<Opt>
  {
    match self
    case Some(v) => f(v)
    case None => Fulfilled(None)
  }

  function Or(self: Opt, other: Opt): Opt
  {
    if self.Some? then self else other
  }

  function OrElse(self: Opt, f: () -> Outcome<Opt>): Outcome<Opt>
  {
    match self
    case Some(v) => Fulfilled(Some(v))
    case None => f()
  }

  /** Present iff exactly one side is present. */
  function Xor(self: Opt, other: Opt): Opt
  {
    if self.Some? && other.None? then self
    else if self.None? && other.Some? then other
    else None
  }

  function Filter(self: Opt, f: Value -> Outcome<bool>): Outcome<Opt>
  {
    match self
    case Some(v) => MapOutcome(f(v), (keep: bool) => if keep then self else None)
    case None => Fulfilled(None)
  }

  /** Collapses `Some(Some(x))`; the static type demands that a present
      payload is itself an option. */
  function Flatten(self: Opt): Opt
    requires self.Some? ==> self.value.Opt?
  {
    match self
    case Some(v) => v.o
    case None => None
  }

  function Map(self: Opt, f: Callback): Outcome<Opt>
  {
    match self
    case Some(v) => MapOutcome(f(v), (u: Value) => Some(u))
    case None => Fulfilled(None)
  }

  function Inspect(self: Opt, f: Callback): Outcome<Opt>
  {
    match self
    case Some(v) => Bind(f(v), (_: Value) => Fulfilled(self))
    case None => Fulfilled(None)
  }

  function Expect(self: Opt, message: string): Outcome<Value>
  {
    match self
    case Some(v) => Fulfilled(v)
    case None => Rejected(PanicValue(AccessPanic(Some(message), Undefined)))
  }

  function Unwrap(self: Opt): Outcome<Value>
  {
    match self
    case Some(v) => Fulfilled(v)
    case None => Rejected(PanicValue(AccessPanic(None, Undefined)))
  }

  function UnwrapOr(self: Opt, default: Value): Value
  {
    match self
    case Some(v) => v
    case None => default
  }

  function UnwrapOrElse(self: Opt, f: Thunk): Outcome<Value>
  {
    match self
    case Some(v) => Fulfilled(v)
    case None => f()
  }

  function MapOr(self: Opt, default: Value, f: Callback): Outcome<Value>
  {
    match self
    case Some(v) => f(v)
    case None => Fulfilled(default)
  }

  function MapOrElse(self: Opt, default: Thunk, f: Callback): Outcome<Value>
  {
    match self
    case Some(v) => f(v)
    case None => default()
  }

  function Match(self: Opt, matcher: OptionMatch): Outcome<Value>
  {
    match self
    case Some(v) => matcher.some(v)
    case None => matcher.none()
  }
}
