/** What one handler invocation does that an observer can see: the log calls it
    makes, the middleware it calls, and the completion signal it gives. Thrown
    values and the way a call completes are defined here too, since both the step
    wrapper and the pipeline engine speak about them. */
module Trace {
  import opened Values
  import opened RequestErrors

  /** A value a middleware (or the code around it) throws or rejects with. The
      `Raised` tag stands for a value built by the RequestError constructor, which
      ramda's `is(RequestError, error)` accepts; an object that merely has the same
      fields is `Other`. */
  datatype Thrown =
    | Raised(error: RequestError)
    | Other(value: Value)
    | TypeError   // raised by the engine itself, e.g. reading a property of `undefined`

  /** How a call settles: it returns (or resolves to) a value, or it throws (or rejects). */
  datatype Completion = Returned(value: Value) | Threw(thrown: Thrown)

  /** The three severities of the logger capability. */
  datatype Level = Debug | Info | Warn

  /** The first argument of a log call. */
  datatype Fields =
    | StepInput(middleware: string, input: Value, context: Value)    // {middleware, input, context}
    | StepOutput(middleware: string, output: Value, context: Value)  // {middleware, output, context}
    | RequestFields(request: Value)                                  // {request}
    | ResponseFields(response: Value)                                // {response}
    | RawError(thrown: Thrown)                                       // the unexpected error itself
    | ErrorFields(error: RequestError)                               // the RequestError reported

  datatype Event =
    | Log(level: Level, tag: string, fields: Fields)
    | Called(middleware: string, receiver: Value, argument: Value)  // a middleware invoked on `receiver`
    | Succeed(response: Value)                                      // lambdaContext.succeed(response)
    | Fail(payload: Json)                                           // lambdaContext.fail(serialised error)

  /** A terminal signal to the completion context. */
  predicate IsSignal(e: Event) {
    e.Succeed? || e.Fail?
  }

  predicate IsCall(e: Event) {
    e.Called?
  }

  predicate IsWarning(e: Event) {
    e.Log? && e.level == Warn
  }

  /** What a wrapped step may emit: debug logs and calls of its middleware. */
  predicate IsStepEvent(e: Event) {
    e.Called? || (e.Log? && e.level == Debug)
  }

  /** The event refers to the middleware context `context` wherever it mentions one. */
  predicate SeesContext(e: Event, context: Value) {
    (e.Called? ==> e.receiver == context) &&
    (e.Log? && (e.fields.StepInput? || e.fields.StepOutput?) ==> e.fields.context == context)
  }

  /** The events of `s` that satisfy `p`, in order. */
  function Filter(s: seq<Event>, p: Event -> bool): (r: seq<Event>)
    ensures |r| <= |s|
    ensures forall e :: e in r ==> e in s && p(e)
    decreases |s|
  {
    if |s| == 0 then []
    else if p(s[0]) then [s[0]] + Filter(s[1..], p)
    else Filter(s[1..], p)
  }

  lemma {:induction false} FilterAppend(a: seq<Event>, b: seq<Event>, p: Event -> bool)
    ensures Filter(a + b, p) == Filter(a, p) + Filter(b, p)
    decreases |a|
  {
    if |a| == 0 {
      assert a + b == b;
    } else {
      assert (a + b)[0] == a[0];
      assert (a + b)[1..] == a[1..] + b;
      FilterAppend(a[1..], b, p);
    }
  }

  /** Nothing is kept of a sequence none of whose events satisfy `p`. */
  lemma {:induction false} FilterNone(s: seq<Event>, p: Event -> bool)
    requires forall e :: e in s ==> !p(e)
    ensures Filter(s, p) == []
    decreases |s|
  {
    if |s| > 0 {
      assert s[0] in s;
      assert forall e :: e in s[1..] ==> e in s;
      FilterNone(s[1..], p);
    }
  }
}
