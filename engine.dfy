/** The pipeline engine (`LambdaConnect`) and the callable handler `getHandler`
    returns. An invocation logs the request, runs the wrapped steps left to right,
    each on the previous one's output and all on the same middleware context, stops
    at the first failure, classifies it, and gives exactly one completion signal. */
module Engine {
  import opened Values
  import opened RequestErrors
  import opened Trace
  import opened WrapMiddleware

  // ---------------------------------------------------------------------------
  // Classifying failures

  /** `new RequestError(500, "Internal server error")`. */
  function InternalServerError(): (e: RequestError)
    ensures e == New([Num(500), Str("Internal server error")])
  {
    RequestError(Num(500), Str("Internal server error"), Undefined)
  }

  /** The RequestError a failure is reported as. Only a value built by the RequestError
      constructor passes through; anything else, whatever its fields, becomes the
      internal server error. */
  function Classify(t: Thrown): (e: RequestError)
    ensures t.Raised? ==> e == t.error
    ensures !t.Raised? ==> e == New([Num(500), Str("Internal server error")])
  {
    match t
    case Raised(error) => error
    case _ => InternalServerError()
  }

  // ---------------------------------------------------------------------------
  // Running the steps (`pipeP(...steps)`)

  /** Events so far and how the run settled. */
  datatype PipeRun = PipeRun(events: seq<Event>, completion: Completion)

  /** The steps composed left to right: the first runs on `input`, each next one on
      its predecessor's output, all on `context`; a failure skips the rest. */
  function Pipe(steps: seq<Step>, context: Value, input: Value): PipeRun
    decreases |steps|
  {
    if |steps| == 0 then PipeRun([], Returned(input))
    else
      var first := RunStep(steps[0], context, input);
      match first.completion
      case Threw(_) => PipeRun(first.events, first.completion)
      case Returned(output) =>
        var rest := Pipe(steps[1..], context, output);
        PipeRun(first.events + rest.events, rest.completion)
  }

  /** Continuing a run with more steps, as a promise's `.then` does: a failed run
      stays as it is, a returned value is fed to the next steps. */
  function AndThen(run: PipeRun, steps: seq<Step>, context: Value): PipeRun {
    match run.completion
    case Threw(_) => run
    case Returned(v) =>
      var rest := Pipe(steps, context, v);
      PipeRun(run.events + rest.events, rest.completion)
  }

  /** Reference definition of what the steps compute, as `sN(...s2(s1(request)))`:
      the last step applied to what all the others computed. */
  function Compose(steps: seq<Step>, context: Value, input: Value): Completion
    decreases |steps|
  {
    if |steps| == 0 then Returned(input)
    else
      match Compose(steps[..|steps| - 1], context, input)
      case Threw(t) => Threw(t)
      case Returned(v) => RunStep(steps[|steps| - 1], context, v).completion
  }

  /** A pipeline of one step is that step. */
  lemma PipeSingle(step: Step, context: Value, input: Value)
    ensures Pipe([step], context, input)
         == PipeRun(RunStep(step, context, input).events, RunStep(step, context, input).completion)
  {
  }

  /** Running `a + b` is running `a` and then `b` on its result: composition is
      associative, so registering more steps only extends a run. */
  lemma {:induction false} PipeAppend(a: seq<Step>, b: seq<Step>, context: Value, input: Value)
    ensures Pipe(a + b, context, input) == AndThen(Pipe(a, context, input), b, context)
    decreases |a|
  {
    if |a| == 0 {
      assert a + b == b;
    } else {
      assert (a + b)[0] == a[0];
      assert (a + b)[1..] == a[1..] + b;
      var first := RunStep(a[0], context, input);
      match first.completion
      case Threw(_) =>
        assert Pipe(a + b, context, input) == PipeRun(first.events, first.completion);
        assert Pipe(a, context, input) == PipeRun(first.events, first.completion);
      case Returned(v) =>
        PipeAppend(a[1..], b, context, v);
        var restA := Pipe(a[1..], context, v);
        assert Pipe(a, context, input) == PipeRun(first.events + restA.events, restA.completion);
        var restAB := Pipe(a[1..] + b, context, v);
        assert Pipe(a + b, context, input) == PipeRun(first.events + restAB.events, restAB.completion);
    }
  }

  /** The pipeline computes exactly the left-to-right composition of its steps. */
  lemma {:induction false} PipeComputesCompose(steps: seq<Step>, context: Value, input: Value)
    ensures Pipe(steps, context, input).completion == Compose(steps, context, input)
    decreases |steps|
  {
    if |steps| > 0 {
      var n := |steps| - 1;
      assert steps == steps[..n] + [steps[n]];
      PipeAppend(steps[..n], [steps[n]], context, input);
      PipeComputesCompose(steps[..n], context, input);
      var prefix := Pipe(steps[..n], context, input);
      if prefix.completion.Returned? {
        PipeSingle(steps[n], context, prefix.completion.value);
      }
    }
  }

  /** Step i receives the output of steps 0..i-1 (the request, for the first step) and
      the same context; it is the only middleware called beyond those before it. */
  lemma StepReceivesPreviousOutput(steps: seq<Step>, i: nat, context: Value, input: Value, v: Value)
    requires i < |steps| && steps[i].middleware.Callable?
    requires Compose(steps[..i], context, input) == Returned(v)
    ensures Filter(Pipe(steps[..i + 1], context, input).events, IsCall)
         == Filter(Pipe(steps[..i], context, input).events, IsCall)
            + [Called(steps[i].middleware.name, context, v)]
  {
    PipeComputesCompose(steps[..i], context, input);
    assert steps[..i + 1] == steps[..i] + [steps[i]];
    PipeAppend(steps[..i], [steps[i]], context, input);
    var step := RunStep(steps[i], context, v);
    PipeSingle(steps[i], context, v);
    WrappedCall(steps[i], context, v);
    FilterAppend(Pipe(steps[..i], context, input).events, step.events, IsCall);
  }

  /** Once the first k steps have failed the later ones change nothing: the whole run,
      events included, is the run of the first k steps. */
  lemma ShortCircuit(steps: seq<Step>, k: nat, context: Value, input: Value)
    requires k <= |steps|
    requires Compose(steps[..k], context, input).Threw?
    ensures Pipe(steps, context, input) == Pipe(steps[..k], context, input)
  {
    PipeComputesCompose(steps[..k], context, input);
    assert steps == steps[..k] + steps[k..];
    PipeAppend(steps[..k], steps[k..], context, input);
  }

  /** The steps emit only debug logs and middleware calls, and every one of them sees
      the configured context. */
  lemma {:induction false} PipeEvents(steps: seq<Step>, context: Value, input: Value)
    ensures forall e :: e in Pipe(steps, context, input).events ==>
              IsStepEvent(e) && SeesContext(e, context)
    decreases |steps|
  {
    if |steps| > 0 {
      var first := RunStep(steps[0], context, input);
      StepEvents(steps[0], context, input);
      if first.completion.Returned? {
        PipeEvents(steps[1..], context, first.completion.value);
      }
    }
  }

  // ---------------------------------------------------------------------------
  // One invocation of the handler

  /** Everything an invocation does, in order. `threwSynchronously` holds when the
      handler itself throws instead of returning a promise. */
  datatype Invocation = Invocation(events: seq<Event>, threwSynchronously: bool)

  function RequestLog(request: Value): Event {
    Log(Info, "Request", RequestFields(request))
  }

  /** The `.then`/`.catch` that end the chain: report success, or classify the failure,
      warn about an unexpected one, and report it serialised. */
  function Settle(c: Completion): seq<Event> {
    match c
    case Returned(response) => [Log(Info, "Succeed", ResponseFields(response)), Succeed(response)]
    case Threw(t) =>
      var error := Classify(t);
      (if t.Raised? then [] else [Log(Warn, "Unexpected error", RawError(t))])
      + [Log(Info, "Fail", ErrorFields(error)), Fail(Serialize(error))]
  }

  /** `handler(request, lambdaContext)` over the registered steps. With no step
      registered, `pipeP()` throws synchronously right after the request is logged. */
  function Handle(steps: seq<Step>, context: Value, request: Value): (r: Invocation)
    ensures |r.events| >= 1 && r.events[0] == RequestLog(request)
    ensures r.threwSynchronously <==> |steps| == 0
    ensures |steps| == 0 ==> r.events == [RequestLog(request)]
  {
    if |steps| == 0 then Invocation([RequestLog(request)], true)
    else
      var run := Pipe(steps, context, request);
      Invocation([RequestLog(request)] + run.events + Settle(run.completion), false)
  }

  function Last(s: seq<Event>): Event
    requires |s| > 0
  {
    s[|s| - 1]
  }

  /** Settling gives one signal, last, and warns only about an unexpected failure. */
  lemma SettleEvents(c: Completion)
    ensures |Settle(c)| > 0
    ensures Filter(Settle(c), IsSignal) == [Last(Settle(c))]
    ensures c.Returned? ==> Last(Settle(c)) == Succeed(c.value)
    ensures c.Threw? ==> Last(Settle(c)) == Fail(Serialize(Classify(c.thrown)))
    ensures Filter(Settle(c), IsWarning)
         == if c.Threw? && !c.thrown.Raised? then [Log(Warn, "Unexpected error", RawError(c.thrown))] else []
  {
    match c
    case Returned(v) =>
      var events := Settle(c);
      assert events[1..][1..] == [];
    case Threw(t) =>
      var error := Classify(t);
      var tail := [Log(Info, "Fail", ErrorFields(error)), Fail(Serialize(error))];
      var warn: seq<Event> := if t.Raised? then [] else [Log(Warn, "Unexpected error", RawError(t))];
      assert tail[1..][1..] == [];
      assert Filter(tail, IsSignal) == [Fail(Serialize(error))];
      assert Filter(tail, IsWarning) == [];
      assert Filter(warn, IsSignal) == [] && Filter(warn, IsWarning) == warn by {
        if !t.Raised? { assert warn[1..] == []; }
      }
      FilterAppend(warn, tail, IsSignal);
      FilterAppend(warn, tail, IsWarning);
      assert Settle(c) == warn + tail;
  }

  /** An invocation over at least one step is the request log, the steps' events and
      the settling; the first two hold no signal and no warning. */
  lemma HandleSplit(steps: seq<Step>, context: Value, request: Value)
    requires |steps| > 0
    ensures var run := Pipe(steps, context, request); var prefix := [RequestLog(request)] + run.events;
      Handle(steps, context, request).events == prefix + Settle(run.completion) &&
      Filter(prefix, IsSignal) == [] && Filter(prefix, IsWarning) == []
  {
    var run := Pipe(steps, context, request);
    PipeEvents(steps, context, request);
    FilterNone([RequestLog(request)] + run.events, IsSignal);
    FilterNone([RequestLog(request)] + run.events, IsWarning);
  }

  /** The only middleware an invocation calls are those its steps call. */
  lemma HandleCalls(steps: seq<Step>, context: Value, request: Value)
    requires |steps| > 0
    ensures Filter(Handle(steps, context, request).events, IsCall)
         == Filter(Pipe(steps, context, request).events, IsCall)
  {
    var run := Pipe(steps, context, request);
    HandleSplit(steps, context, request);
    FilterNone([RequestLog(request)], IsCall);
    FilterNone(Settle(run.completion), IsCall);
    FilterAppend([RequestLog(request)], run.events, IsCall);
    FilterAppend([RequestLog(request)] + run.events, Settle(run.completion), IsCall);
  }

  /** Exactly one completion signal per invocation, and it is the last thing that
      happens: `succeed` with the composed result when every step returned, `fail`
      with the classified failure otherwise. Without steps there is no signal. */
  lemma ExactlyOneSignal(steps: seq<Step>, context: Value, request: Value)
    ensures var r := Handle(steps, context, request);
      |steps| > 0 ==> Filter(r.events, IsSignal) == [Last(r.events)]
    ensures |steps| == 0 ==> Filter(Handle(steps, context, request).events, IsSignal) == []
    ensures var r := Handle(steps, context, request); var c := Compose(steps, context, request);
      |steps| > 0 ==>
        (Last(r.events).Succeed? <==> c.Returned?) &&
        (c.Returned? ==> Last(r.events) == Succeed(c.value)) &&
        (c.Threw? ==> Last(r.events) == Fail(Serialize(Classify(c.thrown))))
  {
    var r := Handle(steps, context, request);
    if |steps| == 0 {
      assert Filter(r.events, IsSignal) == [] by {
        assert r.events[1..] == [];
      }
    } else {
      var run := Pipe(steps, context, request);
      var prefix := [RequestLog(request)] + run.events;
      PipeComputesCompose(steps, context, request);
      HandleSplit(steps, context, request);
      SettleEvents(run.completion);
      FilterAppend(prefix, Settle(run.completion), IsSignal);
      assert Last(r.events) == Last(Settle(run.completion));
    }
  }

  /** The steps and the handler's own log calls all see the same middleware context,
      in every invocation. */
  lemma SameContext(steps: seq<Step>, context: Value, request: Value)
    ensures forall e :: e in Handle(steps, context, request).events ==> SeesContext(e, context)
  {
    if |steps| > 0 {
      PipeEvents(steps, context, request);
      var run := Pipe(steps, context, request);
      assert forall e :: e in Handle(steps, context, request).events ==>
        e in [RequestLog(request)] || e in run.events || e in Settle(run.completion);
    }
  }

  /** How a failure reaches `fail` and the warning log: a RequestError keeps its code,
      message and details and is not warned about; anything else is warned about with
      the value thrown and reaches `fail` as the internal server error. */
  lemma FailureReported(steps: seq<Step>, context: Value, request: Value, t: Thrown)
    requires |steps| > 0
    requires Compose(steps, context, request) == Threw(t)
    ensures var r := Handle(steps, context, request);
      Last(r.events).Fail? &&
      (t.Raised? ==> Parse(Last(r.events).payload) == t.error && Filter(r.events, IsWarning) == []) &&
      (!t.Raised? ==>
         Parse(Last(r.events).payload) == RequestError(Num(500), Str("Internal server error"), Undefined) &&
         Filter(r.events, IsWarning) == [Log(Warn, "Unexpected error", RawError(t))])
  {
    ExactlyOneSignal(steps, context, request);
    ParseSerialize(Classify(t));
    var run := Pipe(steps, context, request);
    PipeComputesCompose(steps, context, request);
    HandleSplit(steps, context, request);
    SettleEvents(run.completion);
    FilterAppend([RequestLog(request)] + run.events, Settle(run.completion), IsWarning);
  }

  /** When the first k steps fail, the invocation is the one the first k steps alone
      would give: the later middleware are never called. */
  lemma LaterStepsNeverRun(steps: seq<Step>, k: nat, context: Value, request: Value)
    requires 0 < k <= |steps|
    requires Compose(steps[..k], context, request).Threw?
    ensures Handle(steps, context, request) == Handle(steps[..k], context, request)
  {
    ShortCircuit(steps, k, context, request);
  }

  // ---------------------------------------------------------------------------
  // The pipeline object

  class LambdaConnect {
    /** `options.middlewareContext || null`, fixed at construction. */
    const middlewareContext: Value
    /** The wrapped middleware, in registration order; only ever appended to. */
    var pipelineSteps: seq<Step>

    /** `new LambdaConnect({middlewareContext})`; an absent option is `Undefined`. */
    constructor (middlewareContext: Value)
      ensures IsFalsy(middlewareContext) ==> this.middlewareContext == Null
      ensures !IsFalsy(middlewareContext) ==> this.middlewareContext == middlewareContext
      ensures pipelineSteps == []
    {
      this.middlewareContext := Or(middlewareContext, Null);
      pipelineSteps := [];
    }

    /** `use(middleware)`: append the wrapped middleware and return this same pipeline. */
    method Use(middleware: Middleware) returns (self: LambdaConnect)
      modifies this
      ensures self == this
      ensures pipelineSteps == old(pipelineSteps) + [Wrapped(middleware)]
    {
      pipelineSteps := pipelineSteps + [Wrapped(middleware)];
      self := this;
    }

    /** `handler(request, lambdaContext)`: runs the steps one at a time, appending what
      each does, until one fails or all have run, then settles. */
    method Handler(request: Value) returns (r: Invocation)
      ensures r == Handle(pipelineSteps, middlewareContext, request)
    {
      var events := [RequestLog(request)];
      if |pipelineSteps| == 0 {
        return Invocation(events, true);
      }
      var payload := request;
      var failure: Option<Thrown> := None;
      var i := 0;
      while i < |pipelineSteps| && failure.None?
        invariant 0 <= i <= |pipelineSteps|
        invariant events == [RequestLog(request)] + Pipe(pipelineSteps[..i], middlewareContext, request).events
        invariant Pipe(pipelineSteps[..i], middlewareContext, request).completion
                  == (if failure.None? then Returned(payload) else Threw(failure.value))
      {
        var step := RunStep(pipelineSteps[i], middlewareContext, payload);
        assert pipelineSteps[..i + 1] == pipelineSteps[..i] + [pipelineSteps[i]];
        PipeAppend(pipelineSteps[..i], [pipelineSteps[i]], middlewareContext, request);
        assert Pipe([pipelineSteps[i]], middlewareContext, payload) == PipeRun(step.events, step.completion) by {
          assert [pipelineSteps[i]][1..] == [];
        }
        events := events + step.events;
        match step.completion {
          case Returned(v) => payload := v;
          case Threw(t) => failure := Some(t);
        }
        i := i + 1;
      }
      var completion := if failure.None? then Returned(payload) else Threw(failure.value);
      if failure.Some? {
        PipeComputesCompose(pipelineSteps[..i], middlewareContext, request);
        ShortCircuit(pipelineSteps, i, middlewareContext, request);
      } else {
        assert pipelineSteps[..i] == pipelineSteps;
      }
      r := Invocation(events + Settle(completion), false);
    }
  }

  /** The callable `getHandler` returns: invoking it runs the pipeline it owns, and its
      `use` registers on that pipeline and returns the handler itself. */
  class BoundHandler {
    const connect: LambdaConnect

    constructor (connect: LambdaConnect)
      ensures this.connect == connect
    {
      this.connect := connect;
    }

    /** `handler(request, lambdaContext)`. */
    method Invoke(request: Value) returns (r: Invocation)
      ensures r == Handle(connect.pipelineSteps, connect.middlewareContext, request)
    {
      r := connect.Handler(request);
    }

    /** `handler.use(middleware)`. */
    method Use(middleware: Middleware) returns (self: BoundHandler)
      modifies connect
      ensures self == this
      ensures connect.pipelineSteps == old(connect.pipelineSteps) + [Wrapped(middleware)]
    {
      var _ := connect.Use(middleware);
      self := this;
    }
  }

  /** `getHandler({middlewareContext})`: a handler over a fresh, empty pipeline. */
  method GetHandler(middlewareContext: Value) returns (h: BoundHandler)
    ensures fresh(h) && fresh(h.connect)
    ensures h.connect.pipelineSteps == []
    ensures h.connect.middlewareContext == Or(middlewareContext, Null)
  {
    var connect := new LambdaConnect(middlewareContext);
    h := new BoundHandler(connect);
  }
}
