/** Clients of the pipeline object and of `getHandler`, configured as in the
    repository's own test suite (test/index.js), with what each invocation must do
    proved from the engine's specification. */
module Scenarios {
  import opened Values
  import opened RequestErrors
  import opened Trace
  import opened WrapMiddleware
  import opened Engine

  /** `always(v)`: ignores its input and returns `v`. */
  function Always(name: string, v: Value): Middleware {
    Callable(name, (receiver: Value, x: Value) => Returned(v))
  }

  /** `identity`. */
  function Identity(name: string): Middleware {
    Callable(name, (receiver: Value, x: Value) => Returned(x))
  }

  /** A middleware that throws `t`. */
  function Throws(name: string, t: Thrown): Middleware {
    Callable(name, (receiver: Value, x: Value) => Threw(t))
  }

  /** The pipeline of the test "interrupts the pipeline on failure": `always(output_0)`,
      a middleware that throws `t`, then `identity`. */
  function InterruptedSteps(t: Thrown): seq<Step> {
    [Wrapped(Always("middleware_0", Ref(1))), Wrapped(Throws("middleware_1", t)),
     Wrapped(Identity("middleware_2"))]
  }

  /** In that pipeline the third middleware is never called, `succeed` is never called,
      and `fail` gets the classified error. */
  lemma InterruptedRun(t: Thrown, context: Value, request: Value)
    ensures var r := Handle(InterruptedSteps(t), context, request);
      (forall e :: e in r.events && e.Called? ==> e.middleware != "middleware_2") &&
      Filter(r.events, IsSignal) == [Fail(Serialize(Classify(t)))]
  {
    var steps := InterruptedSteps(t);
    var first, second := RunStep(steps[0], context, request), RunStep(steps[1], context, Ref(1));
    assert first.completion == Returned(Ref(1));
    assert second.completion == Threw(t);
    var prefix := steps[..2];
    assert prefix[1..] == [steps[1]];
    PipeSingle(steps[1], context, Ref(1));
    var run := Pipe(prefix, context, request);
    assert run == PipeRun(first.events + second.events, Threw(t));
    PipeComputesCompose(prefix, context, request);
    LaterStepsNeverRun(steps, 2, context, request);
    ExactlyOneSignal(steps, context, request);
    PipeComputesCompose(steps, context, request);
    ShortCircuit(steps, 2, context, request);
    var r := Handle(steps, context, request);
    assert r.events == [RequestLog(request)] + first.events + second.events + Settle(Threw(t));
  }

  /** The test "interrupts the pipeline on failure" as a client of the pipeline object:
      three middleware registered with `use`, the second throwing `t`. */
  method InterruptedOnFailure(t: Thrown) returns (r: Invocation)
    ensures forall e :: e in r.events && e.Called? ==> e.middleware != "middleware_2"
    ensures Filter(r.events, IsSignal) == [Fail(Serialize(Classify(t)))]
  {
    var connect := new LambdaConnect(Undefined);
    var steps := InterruptedSteps(t);
    var self := connect.Use(steps[0].middleware);
    self := connect.Use(steps[1].middleware);
    self := connect.Use(steps[2].middleware);
    assert connect.pipelineSteps == steps;
    r := connect.Handler(Ref(0));
    InterruptedRun(t, Null, Ref(0));
  }

  /** Three `identity` middleware, as in the test of `getHandler`'s handler. */
  function IdentitySteps(): seq<Step> {
    [Wrapped(Identity("middleware_0")), Wrapped(Identity("middleware_1")),
     Wrapped(Identity("middleware_2"))]
  }

  /** Running them calls each on the context with the request, in order, and returns
      the request. */
  lemma IdentityPipe(context: Value, request: Value)
    ensures var run := Pipe(IdentitySteps(), context, request);
      run.completion == Returned(request) &&
      Filter(run.events, IsCall)
        == [Called("middleware_0", context, request), Called("middleware_1", context, request),
            Called("middleware_2", context, request)]
  {
    var steps := IdentitySteps();
    var s0, s1, s2 := RunStep(steps[0], context, request), RunStep(steps[1], context, request),
                      RunStep(steps[2], context, request);
    WrappedCall(steps[0], context, request);
    WrappedCall(steps[1], context, request);
    WrappedCall(steps[2], context, request);
    assert steps[1..][1..] == [steps[2]];
    PipeSingle(steps[2], context, request);
    assert Pipe(steps[1..], context, request) == PipeRun(s1.events + s2.events, Returned(request));
    FilterAppend(s1.events, s2.events, IsCall);
    FilterAppend(s0.events, s1.events + s2.events, IsCall);
  }

  /** The handler over them calls each on the context, with the request, in order,
      and `succeed`s with the request. */
  lemma IdentityRun(context: Value, request: Value)
    ensures var r := Handle(IdentitySteps(), context, request);
      Filter(r.events, IsCall)
        == [Called("middleware_0", context, request), Called("middleware_1", context, request),
            Called("middleware_2", context, request)] &&
      Filter(r.events, IsSignal) == [Succeed(request)]
  {
    var steps := IdentitySteps();
    IdentityPipe(context, request);
    HandleCalls(steps, context, request);
    PipeComputesCompose(steps, context, request);
    ExactlyOneSignal(steps, context, request);
  }

  /** The test of `getHandler`'s handler: three middleware registered through the
      chainable `use`, every `use` returning the handler itself, then one invocation. */
  method HandlerWrapsPipeline(context: Value, request: Value) returns (same: bool, r: Invocation)
    requires !IsFalsy(context)
    ensures same
    ensures Filter(r.events, IsCall)
         == [Called("middleware_0", context, request), Called("middleware_1", context, request),
             Called("middleware_2", context, request)]
    ensures Filter(r.events, IsSignal) == [Succeed(request)]
  {
    var handler := GetHandler(context);
    var steps := IdentitySteps();
    var h0 := handler.Use(steps[0].middleware);
    var h1 := h0.Use(steps[1].middleware);
    var h2 := h1.Use(steps[2].middleware);
    same := h0 == handler && h1 == handler && h2 == handler;
    assert handler.connect.pipelineSteps == steps;
    r := handler.Invoke(request);
    IdentityRun(context, request);
  }

  /** `new RequestError()` thrown by a step reaches `fail` as `{"name":"RequestError"}`:
      its omitted fields are undefined and so are not serialised. */
  lemma BareRequestErrorReported(steps: seq<Step>, context: Value, request: Value)
    requires |steps| > 0
    requires Compose(steps, context, request) == Threw(Raised(New([])))
    ensures Filter(Handle(steps, context, request).events, IsSignal) == [Fail([("name", Str("RequestError"))])]
  {
    ExactlyOneSignal(steps, context, request);
    assert Serialize(New([])) == [("name", Str("RequestError"))];
  }
}
