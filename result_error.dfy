/** `ResultError` and its subclass `StdError`: how an error record is built
    from a message or from a native error, its derived display names and
    stack text, and `toStdError`, which sorts an arbitrary caught value
    into "rethrow", "wrap" or "panic".

    The stack text a fresh host error would capture is engine-dependent;
    it is a parameter (`engineStack`).  The stack rewrite uses a regular
    expression built from the origin's name; it is modelled as a
    literal-prefix match.
 */
module Errors {
  import opened Values

  /** The constructor's argument: a message string or a native error. */
  datatype Argument = Message(text: string) | FromError(error: ErrorObj)

  /** The constructor's default argument. */
  const DefaultArgument: Argument := Message("")

  /** The `name` field of `StdError`. */
  const StdErrorName: string := "StdError"

  predicate IsPrefix(p: string, s: string)
  {
    |p| <= |s| && s[..|p|] == p
  }

  /** `new C(arg)` for a subclass `C` whose `name` is `name`. */
  function Construct(name: string, arg: Argument, engineStack: Option<string>): (re: ResultError)
    ensures re.name == name
    ensures arg.Message? ==> re.message == arg.text && re.origin.None?
    ensures arg.FromError? ==> re.message == arg.error.message && re.origin == Some(arg.error)
    ensures arg.FromError? && Truthy(arg.error.stack) ==> re.storedStack == arg.error.stack
    ensures !(arg.FromError? && Truthy(arg.error.stack)) ==> re.storedStack == engineStack
  {
    match arg
    case Message(m) => ResultError(name, m, None, engineStack)
    case FromError(e) =>
      ResultError(name, e.message, Some(e), if Truthy(e.stack) then e.stack else engineStack)
  }

  /** `new StdError(arg)`. */
  function NewStdError(arg: Argument, engineStack: Option<string>): (re: ResultError)
    ensures re == Construct(StdErrorName, arg, engineStack)
    ensures re.name == "StdError"
  {
    Construct(StdErrorName, arg, engineStack)
  }

  /** The origin's name, or "Error" when there is no origin. */
  function OriginName(re: ResultError): (n: string)
    ensures re.origin.None? ==> n == "Error"
    ensures re.origin.Some? ==> n == re.origin.value.name
  {
    match re.origin
    case Some(o) => o.name
    case None => "Error"
  }

  /** The own name, followed by " from " and the origin's name unless that
      is "Error". */
  function ExpandedName(re: ResultError): (n: string)
    ensures OriginName(re) == "Error" ==> n == re.name
    ensures OriginName(re) != "Error" ==> n == re.name + " from " + OriginName(re)
  {
    if OriginName(re) != "Error" then re.name + " from " + OriginName(re) else re.name
  }

  /** `toString()`: the expanded name, ": ", the message. */
  function ToString(re: ResultError): (s: string)
    ensures IsPrefix(ExpandedName(re), s)
    ensures s[|ExpandedName(re)|..] == ": " + re.message
  {
    ExpandedName(re) + ": " + re.message
  }

  /** The `stack` getter: a leading occurrence of the origin's name in the
      stored stack is replaced by the expanded name; an absent stored
      stack stays absent. */
  function Stack(re: ResultError): (st: Option<string>)
    ensures re.storedStack.None? <==> st.None?
    ensures re.storedStack.Some? && IsPrefix(OriginName(re), re.storedStack.value) ==>
              st == Some(ExpandedName(re) + re.storedStack.value[|OriginName(re)|..])
    ensures re.storedStack.Some? && !IsPrefix(OriginName(re), re.storedStack.value) ==>
              st == re.storedStack
  {
    match re.storedStack
    case None => None
    case Some(s) =>
      var o := OriginName(re);
      if IsPrefix(o, s) then Some(ExpandedName(re) + s[|o|..]) else Some(s)
  }

  /** Panics are instances of the host's `Error` class too, which is why
      the conversion checks for them first. */
  predicate IsPanic(v: Value)
  {
    v.PanicValue?
  }

  /** `instanceof Error`.  A `ResultError` implements the error interface
      without extending the host's class, so it is not an instance. */
  predicate IsErrorInstance(v: Value)
  {
    v.ErrorValue? || v.PanicValue?
  }

  /** `toStdError(v)`: a panic is rethrown as it is, any other error is
      wrapped as the origin of a new `StdError`, and every other value makes
      it throw an `InvalidErrorPanic` carrying that value. */
  function ToStdError(v: Value, engineStack: Option<string>): (r: Outcome<ResultError>)
    ensures IsPanic(v) ==> r == Rejected(v)
    ensures IsErrorInstance(v) && !IsPanic(v) ==>
              r == Fulfilled(NewStdError(FromError(v.e), engineStack))
    ensures !IsErrorInstance(v) ==> r == Rejected(PanicValue(InvalidErrorPanic(v)))
    ensures r.Rejected? ==> IsPanic(r.reason)
  {
    if IsPanic(v) then Rejected(v)
    else if IsErrorInstance(v) then Fulfilled(NewStdError(FromError(v.e), engineStack))
    else Rejected(PanicValue(InvalidErrorPanic(v)))
  }

  // Properties of the display names and the stack text.

  /** The rewritten stack starts with the same header as `toString()` when
      the stored stack starts with the origin's header line. */
  lemma StackHeaderIsToString(re: ResultError, rest: string)
    requires re.storedStack == Some(OriginName(re) + ": " + re.message + rest)
    ensures Stack(re) == Some(ToString(re) + rest)
  {
    var o, s := OriginName(re), re.storedStack.value;
    var tail := ": " + re.message + rest;
    assert s == o + tail;
    assert s[..|o|] == o;
    assert s[|o|..] == tail;
    assert ToString(re) + rest == ExpandedName(re) + tail;
  }

  /** A `StdError` built from a message (or from no argument) shows
      "StdError: <message>" where the engine's fresh stack shows
      "Error: <message>". */
  lemma MessageStdErrorStack(m: string, rest: string)
    ensures var re := NewStdError(Message(m), Some("Error: " + m + rest));
            re.message == m && re.origin.None? && ExpandedName(re) == "StdError" &&
            Stack(re) == Some("StdError: " + m + rest)
  {
    var re := NewStdError(Message(m), Some("Error: " + m + rest));
    assert "Error: " + m + rest == OriginName(re) + ": " + re.message + rest;
    StackHeaderIsToString(re, rest);
    assert ToString(re) + rest == "StdError: " + m + rest;
  }

  /** A `StdError` wrapping a plain `Error` keeps its message, its origin
      and its stack, and shows "StdError: <message>" in the stack. */
  lemma WrappedStdErrorStack(m: string, rest: string, engineStack: Option<string>)
    ensures var origin := ErrorObj("Error", m, Some("Error: " + m + rest));
            var re := NewStdError(FromError(origin), engineStack);
            re.message == m && re.origin == Some(origin) && re.storedStack == origin.stack &&
            Stack(re) == Some("StdError: " + m + rest)
  {
    var origin := ErrorObj("Error", m, Some("Error: " + m + rest));
    var re := NewStdError(FromError(origin), engineStack);
    assert Truthy(origin.stack) by { assert origin.stack.value[0] == 'E'; }
    assert "Error: " + m + rest == OriginName(re) + ": " + re.message + rest;
    StackHeaderIsToString(re, rest);
    assert ToString(re) + rest == "StdError: " + m + rest;
  }

  /** Wrapping an error of another class names both classes. */
  lemma WrappedOtherClassNames(name: string, m: string, rest: string, engineStack: Option<string>)
    requires name != "Error"
    ensures var origin := ErrorObj(name, m, Some(name + ": " + m + rest));
            var re := NewStdError(FromError(origin), engineStack);
            ToString(re) == "StdError from " + name + ": " + m &&
            Stack(re) == Some("StdError from " + name + ": " + m + rest)
  {
    var origin := ErrorObj(name, m, Some(name + ": " + m + rest));
    var re := NewStdError(FromError(origin), engineStack);
    assert Truthy(origin.stack) by { assert |origin.stack.value| >= 2; }
    assert re == ResultError("StdError", m, Some(origin), origin.stack);
    var expanded := "StdError from " + name;
    assert ExpandedName(re) == expanded;
    assert ToString(re) == expanded + ": " + m;
    StackHeaderIsToString(re, rest);
    assert ToString(re) + rest == "StdError from " + name + ": " + m + rest;
  }

  /** Converting a native error and reading its names back: the origin is
      that error, and the record rereads its name and message. */
  lemma ToStdErrorRoundTrip(e: ErrorObj, engineStack: Option<string>)
    ensures var r := ToStdError(ErrorValue(e), engineStack);
            r.Fulfilled? && r.value.origin == Some(e) && OriginName(r.value) == e.name &&
            r.value.message == e.message &&
            ExpandedName(r.value) == (if e.name == "Error" then "StdError" else "StdError from " + e.name)
  {
  }

  /** A `ResultError` handed to the conversion is not a host error, so the
      conversion panics on it. */
  lemma ToStdErrorOfResultError(re: ResultError, engineStack: Option<string>)
    ensures ToStdError(ResultErrorValue(re), engineStack) ==
            Rejected(PanicValue(InvalidErrorPanic(ResultErrorValue(re))))
  {
  }

  /** A panic is rethrown as it is, and a number, an empty string, a
      boolean, `undefined`, `null` and a plain object or array each make
      the conversion throw an `InvalidErrorPanic` carrying that value. */
  lemma ToStdErrorRejectsNonErrors(message: string, engineStack: Option<string>)
    ensures ToStdError(PanicValue(UserPanic(message)), engineStack) == Rejected(PanicValue(UserPanic(message)))
    ensures forall v :: v in [Num(0), Str(""), Bool(true), Undefined, Null, Obj] ==>
              ToStdError(v, engineStack) == Rejected(PanicValue(InvalidErrorPanic(v)))
  {
  }

  /** `new StdError()`: the default argument is the empty message, so the
      record has message `""`, no origin and the engine's fresh stack. */
  lemma NoArgumentStdError(engineStack: Option<string>)
    ensures var re := NewStdError(DefaultArgument, engineStack);
            re.name == "StdError" && re.message == "" && re.origin.None? && re.storedStack == engineStack &&
            OriginName(re) == "Error" && ExpandedName(re) == "StdError" && ToString(re) == "StdError: "
  {
  }
}
