/** The generator-driven interpreters `run` and `runAsync`.

    A generator is modelled as a stateful producer: each `next(input)`
    records the input and answers with an iteration `{done, value}` (or
    throws), and `return` records its argument and finishes the generator.
    What the generator does on each resume is a function of every input it
    has been fed so far, and a step budget bounds how many times it can
    yield before it finishes, which is what makes both loops terminate.
 */
module Interpreters {
  import opened Values
  import Promises

  /** `isResult`: an instance of the container implementation class.  A
      container is not a thenable, so `await` leaves it as it is. */
  predicate IsResult(v: Value)
    ensures IsResult(v) ==> !Promises.Thenable(v) && Promises.Await(v) == Fulfilled(v)
  {
    v.Res?
  }

  /** One iteration result `{done, value}`. */
  datatype Iter = Iter(done: bool, value: Value)

  /** A generator object as the interpreters drive it.  `body(inputs)` is
      what the generator does on the resume that brings the inputs fed so
      far to `inputs` (the host discards the first input; it is recorded
      all the same).  Resume number `limit + 1` always finishes it, so it
      yields at most `limit` times.  `hasReturn` says whether the object has
      a `return` method. */
  datatype Generator = Generator(body: seq<Value> -> Outcome<Iter>, limit: nat, hasReturn: bool)

  /** The generator's observable state: the inputs fed so far and whether
      it has finished. */
  datatype GenState = GenState(fed: seq<Value>, finished: bool)

  /** `gen.next(x)`: a finished generator answers `{done: true, value:
      undefined}`; a generator whose body throws is finished. */
  function NextStep(g: Generator, st: GenState, x: Value): (r: (GenState, Outcome<Iter>))
    ensures r.0.fed == st.fed + [x]
    ensures st.finished ==> r.0.finished && r.1 == Fulfilled(Iter(true, Undefined))
    ensures r.1.Rejected? ==> r.0.finished
    ensures r.1.Fulfilled? ==> r.0.finished == r.1.value.done
    ensures |st.fed| >= g.limit && r.1.Fulfilled? ==> r.1.value.done
    ensures !st.finished ==> r.1 == MapOutcome(g.body(st.fed + [x]), (it: Iter) =>
              if |st.fed| >= g.limit then Iter(true, it.value) else it)
  {
    var fed := st.fed + [x];
    if st.finished then (GenState(fed, true), Fulfilled(Iter(true, Undefined)))
    else
      match g.body(fed)
      case Rejected(e) => (GenState(fed, true), Rejected(e))
      case Fulfilled(it) =>
        var it' := if |fed| > g.limit then Iter(true, it.value) else it;
        (GenState(fed, it'.done), Fulfilled(it'))
  }

  /** How many more resumes can find the generator unfinished. */
  function Measure(g: Generator, st: GenState): nat
  {
    if st.finished then 0 else if |st.fed| < g.limit then g.limit - |st.fed| + 1 else 1
  }

  /** A resume that does not give the finished generator's answer used up
      part of the budget. */
  lemma NextDecreases(g: Generator, st: GenState, x: Value)
    requires NextStep(g, st, x).1 != Fulfilled(Iter(true, Undefined))
    ensures !st.finished && Measure(g, NextStep(g, st, x).0) < Measure(g, st)
  {
  }

  /** The generator object: its program, the inputs it was fed, the
      arguments `return` was called with, and whether it has finished. */
  class Producer {
    const gen: Generator
    var fed: seq<Value>
    var finished: bool
    var returnArgs: seq<Value>

    function State(): GenState
      reads this
    {
      GenState(fed, finished)
    }

    constructor (g: Generator)
      ensures gen == g && fed == [] && !finished && returnArgs == []
    {
      gen := g;
      fed := [];
      finished := false;
      returnArgs := [];
    }

    /** `next(x)`. */
    method Next(x: Value) returns (o: Outcome<Iter>)
      modifies this
      ensures (State(), o) == NextStep(gen, old(State()), x)
      ensures returnArgs == old(returnArgs)
    {
      var st;
      st, o := NextStep(gen, State(), x).0, NextStep(gen, State(), x).1;
      fed, finished := st.fed, st.finished;
    }

    /** `return(x)`: finishes the generator. */
    method Return(x: Value)
      modifies this
      ensures returnArgs == old(returnArgs) + [x] && fed == old(fed) && finished
    {
      returnArgs := returnArgs + [x];
      finished := true;
    }
  }

  /** What a run leaves behind: its outcome (`Rejected` when the generator
      threw), the inputs fed to `next`, the iterations observed and the
      arguments of the calls to `return`. */
  datatype Trace = Trace(outcome: Outcome<Res>, fed: seq<Value>, seen: seq<Iter>, returnArgs: seq<Value>)

  // ---------------------------------------------------------------------
  // run

  /** The loop of `run` from a generator state, resuming with `x`, having
      observed `seen`. */
  function RunFrom(g: Generator, st: GenState, x: Value, seen: seq<Iter>): (t: Trace)
    ensures st.fed + [x] <= t.fed && seen <= t.seen && |t.returnArgs| <= 1
    ensures t.returnArgs != [] ==> g.hasReturn && t.outcome.Fulfilled? && t.outcome.value.Err? &&
                                   t.returnArgs == [Res(t.outcome.value)]
    decreases Measure(g, st)
  {
    var (st', o) := NextStep(g, st, x);
    match o
    case Rejected(e) => Trace(Rejected(e), st'.fed, seen, [])
    case Fulfilled(it) =>
      var seen' := seen + [it];
      if IsResult(it.value) then
        if it.value.r.Err? then
          Trace(Fulfilled(it.value.r), st'.fed, seen', if g.hasReturn then [it.value] else [])
        else
          NextDecreases(g, st, x);
          RunFrom(g, st', it.value.r.value, seen')
      else Trace(Fulfilled(Ok(it.value)), st'.fed, seen', [])
  }

  /** `run(fn)` where `fn()` is the generator `g`; the first resume passes
      `Ok().unwrap()`, which is `undefined`. */
  function RunTrace(g: Generator): (t: Trace)
    ensures 0 < |t.fed| && t.fed[0] == Undefined
  {
    RunFrom(g, GenState([], false), Undefined, [])
  }

  /** `run(fn)`, given what calling `fn()` did: a throw of `fn()` leaves
      `run` before any resume; otherwise the loop over the generator. */
  function RunCalled(start: Outcome<Generator>): (t: Trace)
    ensures start.Rejected? ==> t == Trace(Rejected(start.reason), [], [], [])
    ensures start.Fulfilled? ==> t == RunTrace(start.value)
  {
    match start
    case Rejected(e) => Trace(Rejected(e), [], [], [])
    case Fulfilled(g) => RunTrace(g)
  }

  /** `run`: calls `fn()` (its outcome is `start`), then drives the
      generator, feeding back the payload of each yielded `Ok`, and stops at
      the first `Err` (calling `return` if the generator has one) or at the
      first value that is not a container.  A throw, of `fn()` or of the
      generator, leaves `run` as `Rejected`. */
  method Run(start: Outcome<Generator>) returns (r: Outcome<Res>, fed: seq<Value>, seen: seq<Iter>, returnArgs: seq<Value>)
    ensures Trace(r, fed, seen, returnArgs) == RunCalled(start)
    ensures start.Rejected? ==> r == Rejected(start.reason) && fed == [] && seen == [] && returnArgs == []
  {
    if start.Rejected? {
      return Rejected(start.reason), [], [], [];
    }
    var g := start.value;
    var gen := new Producer(g);
    var done := false;
    var returnResult: Res := Ok(Undefined);
    seen := [];
    while !done
      invariant fresh(gen) && gen.gen == g
      invariant !done ==> returnResult.Ok? && gen.returnArgs == [] &&
                          RunFrom(g, gen.State(), returnResult.value, seen) == RunTrace(g)
      invariant done ==> Trace(Fulfilled(returnResult), gen.fed, seen, gen.returnArgs) == RunTrace(g)
      decreases if done then 0 else Measure(g, gen.State()) + 1
    {
      ghost var st := gen.State();
      // `returnResult.unwrap()`: `returnResult` is an `Ok` while the loop runs
      var o := gen.Next(returnResult.value);
      if o.Rejected? {
        // the generator threw: the exception leaves `run`
        r, fed, returnArgs := Rejected(o.reason), gen.fed, gen.returnArgs;
        return;
      }
      var iter := o.value;
      seen := seen + [iter];
      if IsResult(iter.value) {
        if iter.value.r.Err? {
          done := true;
          if g.hasReturn {
            gen.Return(iter.value);
          }
        } else {
          NextDecreases(g, st, returnResult.value);
        }
        returnResult := iter.value.r;
      } else {
        done := true;
        returnResult := Ok(iter.value);
      }
    }
    r, fed, returnArgs := Fulfilled(returnResult), gen.fed, gen.returnArgs;
  }

  // ---------------------------------------------------------------------
  // runAsync

  /** `toPromiseResult(v)`: await the value; a container stays itself, a
      `ResultPromise` becomes what its promise settles to, and any other
      value is wrapped in `Ok`.  Awaiting already follows a
      `ResultPromise`, so the function's own `ResultPromise` branch is
      never reached. */
  function ToPromiseResult(v: Value): (r: Outcome<Res>)
    ensures IsResult(v) ==> r == Fulfilled(v.r)
    ensures v.ResPromise? ==> r == v.rp.Settle()
    ensures v.Promise? && v.outcome.Rejected? ==> r == Rejected(v.outcome.reason)
    ensures v.Promise? && v.outcome.Fulfilled? ==> r == ToPromiseResult(v.outcome.value)
    ensures !Promises.Thenable(v) && !IsResult(v) ==> r == Fulfilled(Ok(v))
  {
    match Promises.Await(v)
    case Rejected(e) => Rejected(e)
    case Fulfilled(awaited) =>
      match awaited
      case Res(r) => Fulfilled(r)
      case ResPromise(rp) => rp.Settle()
      case _ => Fulfilled(Ok(awaited))
  }

  /** The continuation `andThen` of `runAsync`, resumed with the payload
      `x` of the running container, having observed `seen`. */
  function RunAsyncFrom(g: Generator, st: GenState, x: Value, seen: seq<Iter>): (t: Trace)
    ensures st.fed + [x] <= t.fed && seen <= t.seen && |t.returnArgs| <= 1
    ensures t.returnArgs != [] ==> g.hasReturn && t.outcome.Fulfilled? && t.outcome.value.Err?
    decreases Measure(g, st)
  {
    var (st', o) := NextStep(g, st, x);
    match o
    case Rejected(e) => Trace(Rejected(e), st'.fed, seen, [])
    case Fulfilled(it) =>
      var seen' := seen + [it];
      var result := ToPromiseResult(it.value);
      if result.Rejected? then Trace(result, st'.fed, seen', [])
      else if it.done then Trace(result, st'.fed, seen', [])
      else if result.value.Err? then
        Trace(result, st'.fed, seen', if g.hasReturn then [it.value] else [])
      else
        NextDecreases(g, st, x);
        RunAsyncFrom(g, st', result.value.value, seen')
  }

  /** `runAsync(fn)` where `fn()` is the generator `g`: the chain starts
      from `Ok()`. */
  function RunAsyncTrace(g: Generator): (t: Trace)
    ensures 0 < |t.fed| && t.fed[0] == Undefined
  {
    RunAsyncFrom(g, GenState([], false), Undefined, [])
  }

  /** The continuation `andThen`: one resume, then either the chain's
      result or the next link of the chain. */
  method AndThen(gen: Producer, value: Res, seen0: seq<Iter>) returns (o: Outcome<Res>, seen: seq<Iter>)
    requires value.Ok? && gen.returnArgs == []
    modifies gen
    ensures Trace(o, gen.fed, seen, gen.returnArgs) == RunAsyncFrom(gen.gen, old(gen.State()), value.value, seen0)
    decreases Measure(gen.gen, gen.State())
  {
    ghost var st := gen.State();
    // `await gen.next(value.unwrap())`
    var next := gen.Next(value.value);
    if next.Rejected? {
      return Rejected(next.reason), seen0;
    }
    var iter := next.value;
    seen := seen0 + [iter];
    var result := ToPromiseResult(iter.value);
    if result.Rejected? || iter.done {
      o := result;
      return;
    }
    if result.value.Err? {
      if gen.gen.hasReturn {
        gen.Return(iter.value);
      }
      o := result;
      return;
    }
    NextDecreases(gen.gen, st, value.value);
    o, seen := AndThen(gen, result.value, seen);
  }

  /** `runAsync(fn)`, given what calling `fn()` did: `fn()` runs inside the
      `async` function `exec`, so its throw rejects the result before any
      resume. */
  function RunAsyncCalled(start: Outcome<Generator>): (t: Trace)
    ensures start.Rejected? ==> t == Trace(Rejected(start.reason), [], [], [])
    ensures start.Fulfilled? ==> t == RunAsyncTrace(start.value)
  {
    match start
    case Rejected(e) => Trace(Rejected(e), [], [], [])
    case Fulfilled(g) => RunAsyncTrace(g)
  }

  /** `runAsync`: calls `fn()` (its outcome is `start`), then runs the
      generator's steps, each converted to a container and settled before
      the next resume, short-circuiting at the first non-final `Err`,
      delivered as a `ResultPromise`.  A throw of `fn()` rejects it. */
  method RunAsync(start: Outcome<Generator>) returns (rp: ResultPromise, fed: seq<Value>, seen: seq<Iter>, returnArgs: seq<Value>)
    ensures Trace(rp.Settle(), fed, seen, returnArgs) == RunAsyncCalled(start)
    ensures start.Rejected? ==> rp.Settle() == Rejected(start.reason) && fed == [] && seen == [] && returnArgs == []
  {
    if start.Rejected? {
      return ResultPromise(Native(Rejected(start.reason))), [], [], [];
    }
    var g := start.value;
    var gen := new Producer(g);
    var o;
    o, seen := AndThen(gen, Ok(Undefined), []);
    rp := ResultPromise(Native(o));
    fed, returnArgs := gen.fed, gen.returnArgs;
  }

  // ---------------------------------------------------------------------
  // What `run` promises

  predicate IsOkResult(v: Value)
  {
    v.Res? && v.r.Ok?
  }

  /** The payload `run` feeds back after observing `v`. */
  function Payload(v: Value): Value
  {
    if IsOkResult(v) then v.r.value else Undefined
  }

  /** The input of resume number `i` (from 0) after observing `seen`. */
  function ResumeInput(seen: seq<Iter>, i: nat): Value
    requires i <= |seen|
  {
    if i == 0 then Undefined else Payload(seen[i - 1].value)
  }

  /** The shape of every trace of `run`: each resume was fed the payload
      of the `Ok` observed just before it; every observed value but the
      last was an `Ok`; the run ends at its last observed value, an `Err`
      that is the result (and the argument of the one call to `return`,
      when there is one) or a non-container that becomes `Ok(value)`; or
      the generator threw on the resume after the last observed value. */
  predicate RunShape(g: Generator, t: Trace)
  {
    (forall i :: 0 <= i < |t.fed| ==> i <= |t.seen| && t.fed[i] == ResumeInput(t.seen, i)) &&
    match t.outcome
    case Rejected(_) =>
      |t.fed| == |t.seen| + 1 && t.returnArgs == [] &&
      (forall i :: 0 <= i < |t.seen| ==> IsOkResult(t.seen[i].value))
    case Fulfilled(res) =>
      |t.fed| == |t.seen| > 0 &&
      (forall i :: 0 <= i < |t.seen| - 1 ==> IsOkResult(t.seen[i].value)) &&
      var last := t.seen[|t.seen| - 1].value;
      (res.Err? ==> last == Res(res) && t.returnArgs == (if g.hasReturn then [last] else [])) &&
      (res.Ok? ==> !IsResult(last) && res.value == last && t.returnArgs == [])
  }

  /** Appending an observed value keeps the earlier resume inputs. */
  lemma RunFedStep(fed: seq<Value>, seen: seq<Iter>, x: Value, it: Iter)
    requires |fed| == |seen|
    requires forall i :: 0 <= i < |seen| ==> fed[i] == ResumeInput(seen, i)
    requires x == ResumeInput(seen, |seen|)
    ensures forall i :: 0 <= i < |fed| + 1 ==> (fed + [x])[i] == ResumeInput(seen + [it], i)
  {
    forall i | 0 <= i < |fed| + 1
      ensures (fed + [x])[i] == ResumeInput(seen + [it], i)
    {
      if 0 < i <= |seen| {
        assert (seen + [it])[i - 1] == seen[i - 1];
      }
    }
  }

  /** The loop ends when the generator throws on a resume. */
  lemma RunThrowShape(g: Generator, st: GenState, x: Value, seen: seq<Iter>)
    requires |st.fed| == |seen|
    requires forall i :: 0 <= i < |seen| ==> st.fed[i] == ResumeInput(seen, i) && IsOkResult(seen[i].value)
    requires x == ResumeInput(seen, |seen|)
    requires NextStep(g, st, x).1.Rejected?
    ensures RunShape(g, RunFrom(g, st, x, seen))
  {
    var t := RunFrom(g, st, x, seen);
    assert t == Trace(Rejected(NextStep(g, st, x).1.reason), st.fed + [x], seen, []);
    forall i | 0 <= i < |t.fed|
      ensures t.fed[i] == ResumeInput(t.seen, i)
    {
      if i < |seen| {
        assert t.fed[i] == st.fed[i];
      }
    }
  }

  /** The loop ends at an observed value that is not an `Ok`. */
  lemma RunStopShape(g: Generator, st: GenState, x: Value, seen: seq<Iter>, it: Iter)
    requires |st.fed| == |seen|
    requires forall i :: 0 <= i < |seen| ==> IsOkResult(seen[i].value)
    requires forall i :: 0 <= i < |st.fed| + 1 ==> (st.fed + [x])[i] == ResumeInput(seen + [it], i)
    requires NextStep(g, st, x).1 == Fulfilled(it) && !IsOkResult(it.value)
    ensures RunShape(g, RunFrom(g, st, x, seen))
  {
    var seen' := seen + [it];
    var t := RunFrom(g, st, x, seen);
    if IsResult(it.value) {
      assert t == Trace(Fulfilled(it.value.r), st.fed + [x], seen', if g.hasReturn then [it.value] else []);
    } else {
      assert t == Trace(Fulfilled(Ok(it.value)), st.fed + [x], seen', []);
    }
    assert t.seen[|t.seen| - 1] == it;
    forall i | 0 <= i < |t.seen| - 1
      ensures IsOkResult(t.seen[i].value)
    {
      assert t.seen[i] == seen[i];
    }
  }

  /** `RunFrom` keeps the shape from any state reached by feeding back the
      payloads of observed `Ok`s. */
  lemma {:induction false} RunFromShape(g: Generator, st: GenState, x: Value, seen: seq<Iter>)
    requires |st.fed| == |seen|
    requires forall i :: 0 <= i < |seen| ==> st.fed[i] == ResumeInput(seen, i) && IsOkResult(seen[i].value)
    requires x == ResumeInput(seen, |seen|)
    ensures RunShape(g, RunFrom(g, st, x, seen))
    decreases Measure(g, st)
  {
    var (st', o) := NextStep(g, st, x);
    match o
    case Rejected(e) =>
      RunThrowShape(g, st, x, seen);
    case Fulfilled(it) =>
      var seen' := seen + [it];
      RunFedStep(st.fed, seen, x, it);
      if IsOkResult(it.value) {
        NextDecreases(g, st, x);
        assert forall i :: 0 <= i < |seen'| ==> IsOkResult(seen'[i].value);
        assert RunFrom(g, st, x, seen) == RunFrom(g, st', it.value.r.value, seen');
        RunFromShape(g, st', it.value.r.value, seen');
      } else {
        RunStopShape(g, st, x, seen, it);
      }
  }

  /** `run`'s promises: the first resume is fed `undefined` and each later
      one the payload of the `Ok` yielded just before; the result is either
      `Ok` of a value that is not a container, which was the last value
      observed, or the first `Err` observed, after which `next` is not
      called again and `return` is called once, with that `Err`, when the
      generator has it. */
  lemma RunProperties(g: Generator)
    ensures var t := RunTrace(g);
      0 < |t.fed| <= |t.seen| + 1 && t.fed[0] == Undefined &&
      (forall i :: 0 < i < |t.fed| ==> IsOkResult(t.seen[i - 1].value) && t.fed[i] == t.seen[i - 1].value.r.value) &&
      (t.outcome.Fulfilled? ==>
         |t.fed| == |t.seen| && (forall i :: 0 <= i < |t.seen| - 1 ==> IsOkResult(t.seen[i].value))) &&
      (t.outcome.Fulfilled? && t.outcome.value.Ok? ==>
         !IsResult(t.outcome.value.value) && t.outcome.value.value == t.seen[|t.seen| - 1].value && t.returnArgs == []) &&
      (t.outcome.Fulfilled? && t.outcome.value.Err? ==>
         t.seen[|t.seen| - 1].value == Res(t.outcome.value) &&
         t.returnArgs == (if g.hasReturn then [Res(t.outcome.value)] else [])) &&
      (t.outcome.Rejected? ==> t.returnArgs == [])
  {
    RunFromShape(g, GenState([], false), Undefined, []);
    var t := RunTrace(g);
    assert |t.fed| > 0 && t.fed[0] == ResumeInput(t.seen, 0);
    forall i | 0 < i < |t.fed|
      ensures IsOkResult(t.seen[i - 1].value) && t.fed[i] == t.seen[i - 1].value.r.value
    {
      assert t.fed[i] == ResumeInput(t.seen, i);
    }
  }

  // ---------------------------------------------------------------------
  // What `runAsync` promises

  /** A step after which `runAsync` resumes the generator: not final, and
      converted to an `Ok`. */
  predicate Continues(it: Iter)
  {
    !it.done && ToPromiseResult(it.value).Fulfilled? && ToPromiseResult(it.value).value.Ok?
  }

  /** The payload `runAsync` feeds back after the step yielding `v`. */
  function Converted(v: Value): Value
  {
    match ToPromiseResult(v)
    case Fulfilled(Ok(p)) => p
    case _ => Undefined
  }

  /** The input of resume number `i` (from 0) after observing `seen`. */
  function AsyncResumeInput(seen: seq<Iter>, i: nat): Value
    requires i <= |seen|
  {
    if i == 0 then Undefined else Converted(seen[i - 1].value)
  }

  /** Each resume of a `runAsync` trace was fed the converted payload of
      the step before it. */
  predicate AsyncFed(t: Trace)
  {
    forall i :: 0 <= i < |t.fed| ==> i <= |t.seen| && t.fed[i] == AsyncResumeInput(t.seen, i)
  }

  /** The generator threw on the resume after the last step, and every
      step before continued the chain. */
  predicate ThrewOnResume(t: Trace)
  {
    |t.fed| == |t.seen| + 1 && t.outcome.Rejected? && t.returnArgs == [] &&
    forall i :: 0 <= i < |t.seen| ==> Continues(t.seen[i])
  }

  /** The chain stopped at its last step, the first that did not continue:
      its converted value is the result, and `return` was called (with
      the raw yielded value) only when that step was a non-final `Err`. */
  predicate StoppedAt(g: Generator, t: Trace)
  {
    |t.fed| == |t.seen| > 0 &&
    (forall i :: 0 <= i < |t.seen| - 1 ==> Continues(t.seen[i])) &&
    var last := t.seen[|t.seen| - 1];
    !Continues(last) && t.outcome == ToPromiseResult(last.value) &&
    t.returnArgs == (if !last.done && t.outcome.Fulfilled? && t.outcome.value.Err? && g.hasReturn
                     then [last.value] else [])
  }

  /** The shape of every trace of `runAsync`. */
  predicate RunAsyncShape(g: Generator, t: Trace)
  {
    AsyncFed(t) && (ThrewOnResume(t) || StoppedAt(g, t))
  }

  /** Appending a step keeps the earlier resume inputs. */
  lemma AsyncFedStep(fed: seq<Value>, seen: seq<Iter>, x: Value, it: Iter)
    requires |fed| == |seen|
    requires forall i :: 0 <= i < |seen| ==> fed[i] == AsyncResumeInput(seen, i)
    requires x == AsyncResumeInput(seen, |seen|)
    ensures forall i :: 0 <= i < |fed| + 1 ==> (fed + [x])[i] == AsyncResumeInput(seen + [it], i)
  {
    forall i | 0 <= i < |fed| + 1
      ensures (fed + [x])[i] == AsyncResumeInput(seen + [it], i)
    {
      if 0 < i <= |seen| {
        assert (seen + [it])[i - 1] == seen[i - 1];
      }
    }
  }

  /** The chain ends when the generator throws on a resume. */
  lemma AsyncThrowShape(g: Generator, st: GenState, x: Value, seen: seq<Iter>)
    requires |st.fed| == |seen|
    requires forall i :: 0 <= i < |seen| ==> st.fed[i] == AsyncResumeInput(seen, i) && Continues(seen[i])
    requires x == AsyncResumeInput(seen, |seen|)
    requires NextStep(g, st, x).1.Rejected?
    ensures AsyncFed(RunAsyncFrom(g, st, x, seen)) && ThrewOnResume(RunAsyncFrom(g, st, x, seen))
  {
    var (st', o) := NextStep(g, st, x);
    assert RunAsyncFrom(g, st, x, seen) == Trace(Rejected(o.reason), st.fed + [x], seen, []);
    ThrewShape(st.fed, seen, x, o.reason);
  }

  /** A trace that ends with a throw on the resume after `seen`. */
  lemma ThrewShape(fed: seq<Value>, seen: seq<Iter>, x: Value, e: Value)
    requires |fed| == |seen|
    requires forall i :: 0 <= i < |seen| ==> fed[i] == AsyncResumeInput(seen, i) && Continues(seen[i])
    requires x == AsyncResumeInput(seen, |seen|)
    ensures AsyncFed(Trace(Rejected(e), fed + [x], seen, [])) && ThrewOnResume(Trace(Rejected(e), fed + [x], seen, []))
  {
    forall i | 0 <= i < |fed| + 1
      ensures (fed + [x])[i] == AsyncResumeInput(seen, i)
    {
      if i < |seen| {
        assert (fed + [x])[i] == fed[i];
      }
    }
  }

  /** The chain ends at a step that does not continue it. */
  lemma AsyncStopShape(g: Generator, st: GenState, x: Value, seen: seq<Iter>, it: Iter)
    requires |st.fed| == |seen|
    requires forall i :: 0 <= i < |seen| ==> Continues(seen[i])
    requires forall i :: 0 <= i < |st.fed| + 1 ==> (st.fed + [x])[i] == AsyncResumeInput(seen + [it], i)
    requires NextStep(g, st, x).1 == Fulfilled(it) && !Continues(it)
    ensures AsyncFed(RunAsyncFrom(g, st, x, seen)) && StoppedAt(g, RunAsyncFrom(g, st, x, seen))
  {
    var seen' := seen + [it];
    var result := ToPromiseResult(it.value);
    var t := RunAsyncFrom(g, st, x, seen);
    assert t == Trace(result, st.fed + [x], seen',
                      if !it.done && result.Fulfilled? && result.value.Err? && g.hasReturn then [it.value] else []);
    assert t.seen[|t.seen| - 1] == it;
    forall i | 0 <= i < |t.seen| - 1
      ensures Continues(t.seen[i])
    {
      assert t.seen[i] == seen[i];
    }
  }

  lemma {:induction false} RunAsyncFromShape(g: Generator, st: GenState, x: Value, seen: seq<Iter>)
    requires |st.fed| == |seen|
    requires forall i :: 0 <= i < |seen| ==> st.fed[i] == AsyncResumeInput(seen, i) && Continues(seen[i])
    requires x == AsyncResumeInput(seen, |seen|)
    ensures RunAsyncShape(g, RunAsyncFrom(g, st, x, seen))
    decreases Measure(g, st)
  {
    var (st', o) := NextStep(g, st, x);
    match o
    case Rejected(e) =>
      AsyncThrowShape(g, st, x, seen);
    case Fulfilled(it) =>
      var seen' := seen + [it];
      AsyncFedStep(st.fed, seen, x, it);
      if Continues(it) {
        NextDecreases(g, st, x);
        var x' := ToPromiseResult(it.value).value.value;
        assert forall i :: 0 <= i < |seen'| ==> Continues(seen'[i]);
        assert RunAsyncFrom(g, st, x, seen) == RunAsyncFrom(g, st', x', seen');
        RunAsyncFromShape(g, st', x', seen');
      } else {
        AsyncStopShape(g, st, x, seen, it);
      }
  }

  /** `runAsync`'s promises: the chain starts from `Ok()`, so the first
      resume is fed `undefined`, and each later one the converted payload
      of the step before; a final step's converted value is the result as
      it is, even an `Err`, and `return` is not called; a non-final step
      converted to an `Err` is the result, `return` is called once with
      the value the generator yielded, and `next` is not called again; a
      throw on a resume, or a step whose conversion rejects, rejects the
      result without a call to `return`. */
  lemma RunAsyncProperties(g: Generator)
    ensures var t := RunAsyncTrace(g);
      0 < |t.fed| <= |t.seen| + 1 && t.fed[0] == Undefined &&
      (forall i :: 0 < i < |t.fed| ==> Continues(t.seen[i - 1]) && t.fed[i] == Converted(t.seen[i - 1].value)) &&
      (|t.fed| == |t.seen| ==> t.outcome == ToPromiseResult(t.seen[|t.seen| - 1].value)) &&
      (|t.fed| == |t.seen| && t.seen[|t.seen| - 1].done ==> t.returnArgs == []) &&
      (|t.fed| == |t.seen| && !t.seen[|t.seen| - 1].done && t.outcome.Fulfilled? ==>
         t.outcome.value.Err? &&
         t.returnArgs == (if g.hasReturn then [t.seen[|t.seen| - 1].value] else [])) &&
      (t.outcome.Fulfilled? && t.outcome.value.Ok? ==> |t.fed| == |t.seen| && t.seen[|t.seen| - 1].done) &&
      (|t.fed| == |t.seen| + 1 ==> t.outcome.Rejected? && t.returnArgs == []) &&
      (|t.fed| == |t.seen| && t.outcome.Rejected? ==> t.returnArgs == [])
  {
    RunAsyncFromShape(g, GenState([], false), Undefined, []);
    var t := RunAsyncTrace(g);
    assert t.fed[0] == AsyncResumeInput(t.seen, 0);
    forall i | 0 < i < |t.fed|
      ensures Continues(t.seen[i - 1]) && t.fed[i] == Converted(t.seen[i - 1].value)
    {
      assert t.fed[i] == AsyncResumeInput(t.seen, i);
    }
  }

  /** Unlike `run`, `runAsync` wraps a plain yielded value in `Ok` and
      feeds that same value back on the next resume. */
  lemma PlainYieldContinues(v: Value)
    requires !Promises.Thenable(v) && !IsResult(v)
    ensures Continues(Iter(false, v)) && Converted(v) == v
  {
  }

  /** Awaiting never produces a `ResultPromise`, so the `ResultPromise`
      branch of `toPromiseResult` is dead. */
  lemma AwaitedNeverResultPromise(v: Value)
    ensures Promises.Await(v).Fulfilled? ==> !Promises.Await(v).value.ResPromise?
  {
  }

  // ---------------------------------------------------------------------
  // Worked runs

  const DivisionByZero: Value := Str("division by zero")

  /** Yields `Ok(5)`, then the `Err` of a division by zero, then would
      finish with `0`. */
  function DivisionBody(inputs: seq<Value>): Outcome<Iter>
  {
    if |inputs| == 1 then Fulfilled(Iter(false, Res(Ok(Num(5)))))
    else if |inputs| == 2 then Fulfilled(Iter(false, Res(Err(DivisionByZero))))
    else Fulfilled(Iter(true, Num(0)))
  }

  const Division: Generator := Generator(DivisionBody, 3, true)

  /** Both interpreters stop at the `Err`: the generator is resumed twice,
      the second time with the payload `5`, and `return` is called once
      with the `Err`; the third step never runs. */
  lemma DivisionStopsAtErr()
    ensures var want := Trace(Fulfilled(Err(DivisionByZero)), [Undefined, Num(5)],
                              [Iter(false, Res(Ok(Num(5)))), Iter(false, Res(Err(DivisionByZero)))],
                              [Res(Err(DivisionByZero))]);
            RunTrace(Division) == want && RunAsyncTrace(Division) == want
  {
    var st1 := GenState([Undefined], false);
    var it1 := Iter(false, Res(Ok(Num(5))));
    assert [] + [Undefined] == [Undefined];
    assert Division.body([Undefined]) == Fulfilled(it1);
    assert NextStep(Division, GenState([], false), Undefined) == (st1, Fulfilled(it1));
    assert [] + [it1] == [it1];
    assert [Undefined] + [Num(5)] == [Undefined, Num(5)];
    assert RunTrace(Division) == RunFrom(Division, st1, Num(5), [it1]);
    assert RunAsyncTrace(Division) == RunAsyncFrom(Division, st1, Num(5), [it1]);
    assert Division.body([Undefined, Num(5)]) == Fulfilled(Iter(false, Res(Err(DivisionByZero))));
    assert NextStep(Division, st1, Num(5)) ==
           (GenState([Undefined, Num(5)], false), Fulfilled(Iter(false, Res(Err(DivisionByZero)))));
  }

  /** Yields the plain value `7`, then finishes with what it was fed. */
  function PlainYieldBody(inputs: seq<Value>): Outcome<Iter>
  {
    if |inputs| <= 1 then Fulfilled(Iter(false, Num(7)))
    else Fulfilled(Iter(true, inputs[1]))
  }

  const PlainYield: Generator := Generator(PlainYieldBody, 2, false)

  /** `run` ends at a plain yielded value, while `runAsync` treats it as
      `Ok(7)`, feeds `7` back and ends at the generator's final value. */
  lemma PlainYieldContrast()
    ensures RunTrace(PlainYield) == Trace(Fulfilled(Ok(Num(7))), [Undefined], [Iter(false, Num(7))], [])
    ensures RunAsyncTrace(PlainYield) ==
            Trace(Fulfilled(Ok(Num(7))), [Undefined, Num(7)], [Iter(false, Num(7)), Iter(true, Num(7))], [])
  {
    var st1 := GenState([Undefined], false);
    var it1 := Iter(false, Num(7));
    assert [] + [Undefined] == [Undefined];
    assert PlainYield.body([Undefined]) == Fulfilled(it1);
    assert NextStep(PlainYield, GenState([], false), Undefined) == (st1, Fulfilled(it1));
    assert [] + [it1] == [it1];
    assert [Undefined] + [Num(7)] == [Undefined, Num(7)];
    assert ToPromiseResult(Num(7)) == Fulfilled(Ok(Num(7)));
    assert RunAsyncTrace(PlainYield) == RunAsyncFrom(PlainYield, st1, Num(7), [it1]);
    assert PlainYield.body([Undefined, Num(7)]) == Fulfilled(Iter(true, Num(7)));
    assert NextStep(PlainYield, st1, Num(7)) ==
           (GenState([Undefined, Num(7)], true), Fulfilled(Iter(true, Num(7))));
  }

  /** Finishes at once, with `Ok(1)` as its return value. */
  function ReturnsOkBody(inputs: seq<Value>): Outcome<Iter>
  {
    Fulfilled(Iter(true, Res(Ok(Num(1)))))
  }

  const ReturnsOk: Generator := Generator(ReturnsOkBody, 1, false)

  /** `run` does not look at `done`: it feeds the final `Ok`'s payload to
      the finished generator, which answers `undefined`, and the run ends
      with `Ok(undefined)`; `runAsync` ends with the final `Ok(1)`. */
  lemma FinalOkContrast()
    ensures RunTrace(ReturnsOk) ==
            Trace(Fulfilled(Ok(Undefined)), [Undefined, Num(1)],
                  [Iter(true, Res(Ok(Num(1)))), Iter(true, Undefined)], [])
    ensures RunAsyncTrace(ReturnsOk) ==
            Trace(Fulfilled(Ok(Num(1))), [Undefined], [Iter(true, Res(Ok(Num(1))))], [])
  {
    var st1 := GenState([Undefined], true);
    var it1 := Iter(true, Res(Ok(Num(1))));
    assert [] + [Undefined] == [Undefined];
    assert NextStep(ReturnsOk, GenState([], false), Undefined) == (st1, Fulfilled(it1));
    assert [] + [it1] == [it1];
    assert [Undefined] + [Num(1)] == [Undefined, Num(1)];
    assert RunTrace(ReturnsOk) == RunFrom(ReturnsOk, st1, Num(1), [it1]);
    assert NextStep(ReturnsOk, st1, Num(1)) ==
           (GenState([Undefined, Num(1)], true), Fulfilled(Iter(true, Undefined)));
  }

  /** Finishes at once, with an `Err` as its return value. */
  function ReturnsErrBody(inputs: seq<Value>): Outcome<Iter>
  {
    Fulfilled(Iter(true, Res(Err(DivisionByZero))))
  }

  const ReturnsErr: Generator := Generator(ReturnsErrBody, 1, true)

  /** A final `Err` ends both runs, but only `run` calls `return` on it. */
  lemma FinalErrContrast()
    ensures RunTrace(ReturnsErr) ==
            Trace(Fulfilled(Err(DivisionByZero)), [Undefined], [Iter(true, Res(Err(DivisionByZero)))],
                  [Res(Err(DivisionByZero))])
    ensures RunAsyncTrace(ReturnsErr) ==
            Trace(Fulfilled(Err(DivisionByZero)), [Undefined], [Iter(true, Res(Err(DivisionByZero)))], [])
  {
    assert [] + [Undefined] == [Undefined];
    assert NextStep(ReturnsErr, GenState([], false), Undefined) ==
           (GenState([Undefined], true), Fulfilled(Iter(true, Res(Err(DivisionByZero)))));
  }
}
