/** `wrapMiddleware(log, middleware)`: a pipeline step that logs a middleware's
    input, calls it on the ambient middleware context, logs its output and passes
    that output on. It catches nothing. */
module WrapMiddleware {
  import opened Values
  import opened Trace

  /** What can be registered with `use`. A function has a `name` ("" when it is
      anonymous) and a body that takes the receiver (`this`) and its one argument.
      `Missing` is `use()` called with `undefined` or `null`. */
  datatype Middleware =
    | Callable(name: string, body: (Value, Value) -> Completion)
    | Missing

  /** A registered middleware, wrapped. The logger is the pipeline's shared one; its
      calls appear as `Log` events. */
  datatype Step = Wrapped(middleware: Middleware)

  /** What running one step produced: its events in order and how it settled. */
  datatype StepRun = StepRun(events: seq<Event>, completion: Completion)

  function BeforeLog(name: string, input: Value, context: Value): Event {
    Log(Debug, "MiddlewareBefore", StepInput(name, input, context))
  }

  function AfterLog(name: string, output: Value, context: Value): Event {
    Log(Debug, "MiddlewareAfter", StepOutput(name, output, context))
  }

  /** The wrapped step called on `context` with `input`. The before-hook reads
      `middleware.name`, which throws a TypeError when no middleware was given. */
  function RunStep(step: Step, context: Value, input: Value): StepRun {
    match step.middleware
    case Missing => StepRun([], Threw(TypeError))
    case Callable(name, body) =>
      var before := [BeforeLog(name, input, context), Called(name, context, input)];
      var result := body(context, input);
      match result
      case Returned(output) => StepRun(before + [AfterLog(name, output, context)], result)
      case Threw(_) => StepRun(before, result)
  }

  /** What a wrapped step promises about its middleware: it is called exactly once, on the
      context, with the input, after a before-event; its result is the step's result,
      unchanged; the after-event is emitted exactly when it returned. */
  lemma WrappedCall(step: Step, context: Value, input: Value)
    requires step.middleware.Callable?
    ensures var r := RunStep(step, context, input); var name := step.middleware.name;
      r.completion == step.middleware.body(context, input) &&
      |r.events| >= 2 && r.events[0] == BeforeLog(name, input, context) &&
      Filter(r.events, IsCall) == [Called(name, context, input)] &&
      (r.completion.Returned? ==> r.events[|r.events| - 1] == AfterLog(name, r.completion.value, context)) &&
      (r.completion.Threw? ==> forall e :: e in r.events ==> !(e.Log? && e.tag == "MiddlewareAfter"))
  {
    var name := step.middleware.name;
    var before := [BeforeLog(name, input, context), Called(name, context, input)];
    assert Filter(before, IsCall) == [Called(name, context, input)] by {
      assert before[1..][1..] == [];
    }
    var result := step.middleware.body(context, input);
    if result.Returned? {
      var after := [AfterLog(name, result.value, context)];
      FilterAppend(before, after, IsCall);
      assert Filter(after, IsCall) == [] by {
        assert after[1..] == [];
      }
    }
  }

  /** Without a middleware the before-hook throws: nothing is logged or called. */
  lemma MissingMiddlewareThrows(step: Step, context: Value, input: Value)
    requires step.middleware.Missing?
    ensures RunStep(step, context, input) == StepRun([], Threw(TypeError))
  {
  }

  /** A step never logs above debug level, never signals completion, and only ever
      mentions the context it was given. */
  lemma StepEvents(step: Step, context: Value, input: Value)
    ensures forall e :: e in RunStep(step, context, input).events ==>
              IsStepEvent(e) && SeesContext(e, context)
  {
  }
}
