# lambda-connect, modelled in Dafny

lambda-connect turns an ordered list of middleware into one handler for a
single-invocation serverless host. Each handler call works like this:

- It logs the request.
- It runs the wrapped middleware left to right. Each one gets the previous one's output and the same middleware context.
- It stops at the first failure.
- It reports through exactly one of `lambdaContext.succeed` or `lambdaContext.fail`.

A failure that is a `RequestError` keeps its own fields. Anything else becomes
`RequestError(500, "Internal server error")` and is logged as a warning first.

The model has these modules:

- `Values`: JavaScript values as the pipeline sees them, and their truthiness (`||`).
- `RequestErrors`: the `RequestError` constructor (src/request-error.js), and the serialised object that `JSON.stringify` gives for it. The serialised object is a list of members, and `Parse` reads it back.
- `Trace`: what an invocation does that can be observed, kept as a list of events. The events are log calls (level, tag, fields), middleware calls (receiver and argument), and the `succeed`/`fail` signal. This module also defines thrown values (the `Raised` tag stands for a value that ramda's `is(RequestError, error)` accepts because the RequestError constructor built it) and completions.
- `WrapMiddleware`: `wrapMiddleware` (src/wrap-middleware.js). `RunStep` is the wrapped step run on a context and an input.
- `Engine`: `LambdaConnect` and `getHandler` (src/index.js). `Pipe` is `pipeP` over the wrapped steps and `Compose` is an independent left-to-right reference for it. `Handle` is one whole invocation. The class `LambdaConnect` has the step list as a `seq` field, an appending `Use`, and a `Handler` loop proved equal to `Handle`. `BoundHandler` is the callable that `getHandler` returns, with its chainable `use`.
- `Scenarios`: configurations taken from test/index.js, driven through the classes, with what each invocation must do proved.

Middleware bodies are arbitrary caller code, so each one is an uninterpreted
function from (receiver, argument) to a completion. A middleware that returns a
promise is modelled by the way that promise settles.

An empty pipeline is not the identity. `handler` evaluates
`pipeP(...this.pipelineSteps)`, and `pipeP()` with no arguments throws
synchronously. So with no step registered the handler logs the request and then
throws, with no completion signal. `Handle` reports `threwSynchronously` exactly
when no step is registered, and `ExactlyOneSignal` proves that there is no signal
in that case.

## Model

| member | source | states |
|---|---|---|
| `Values.Or` | src/index.js:11 | `a || b` is `b` exactly when `a` is falsy, otherwise `a` |
| `RequestErrors.New` | src/request-error.js:3-8 | the constructor stores code, message and details exactly as passed; omitted arguments are `undefined`, extra ones ignored |
| `RequestErrors.Serialize` | src/index.js:35 | the serialised error always starts with `name: "RequestError"`, has at most four members and never holds an `undefined` member |
| `RequestErrors.ParseSerialize` | src/request-error.js:3-8 | reading the serialised error back gives the same code, message and details, and `name` is always "RequestError" whatever the arguments |
| `RequestErrors.SerializeInjective` | src/request-error.js:5-8 | the `fail` payload depends only on the fields: equal fields give an equal payload; when no field holds an object or function, an equal payload also means equal fields |
| `WrapMiddleware.WrappedCall` | src/wrap-middleware.js:4-21 | the wrapped step logs `MiddlewareBefore` with name, input and context first; calls the middleware exactly once, on the context, with the input unmodified; returns its result unchanged; logs `MiddlewareAfter` with the output last exactly when it returned, and not at all when it threw |
| `WrapMiddleware.MissingMiddlewareThrows` | src/wrap-middleware.js:7-10 | with no middleware, reading its `name` in the before-hook throws a TypeError before anything is logged or called |
| `WrapMiddleware.StepEvents` | src/wrap-middleware.js:7-18 | a step only logs at debug level and calls its middleware, never signals completion, and mentions only the context it was given |
| `Engine.InternalServerError` | src/index.js:32 | the replacement error is `new RequestError(500, "Internal server error")` |
| `Engine.Classify` | src/index.js:29-33 | a value built by the RequestError constructor passes through unchanged; every other thrown value, whatever its fields, becomes the 500 error |
| `Engine.PipeSingle` | src/index.js:24 | a pipeline of one step behaves as that step |
| `Engine.PipeAppend` | src/index.js:24 | running `a + b` is running `a` and then feeding its output to `b`, and a failure in `a` skips `b` |
| `Engine.PipeComputesCompose` | src/index.js:23-24 | the pipeline's result is the left-to-right composition `sN(...s1(request))` of its steps |
| `Engine.StepReceivesPreviousOutput` | src/index.js:23-24 | step i is called on the middleware context with the output of steps 0..i-1 (the request for the first), after all calls those steps made |
| `Engine.ShortCircuit` | src/index.js:24-29 | once the first k steps have failed, the whole run, events included, equals the run of those k steps |
| `Engine.PipeEvents` | src/index.js:23-24 | the steps' events are debug logs and middleware calls, and all of them see the one configured context |
| `Engine.Handle` | src/index.js:21-24 | an invocation starts by logging the request; it throws synchronously exactly when no step is registered, and then does nothing else |
| `Engine.SettleEvents` | src/index.js:25-36 | settling gives one signal, last: `succeed` with the response, or `fail` with the serialised classified error; it warns only about a failure that is not a RequestError |
| `Engine.HandleSplit` | src/index.js:21-36 | an invocation is the request log, then the steps' events, then the settling, and nothing before the settling signals or warns |
| `Engine.HandleCalls` | src/index.js:21-36 | the only middleware calls in an invocation are the steps' own |
| `Engine.ExactlyOneSignal` | src/index.js:21-36 | a pipeline with steps gives exactly one of `succeed`/`fail`, as its last event: `succeed` with the composed result exactly when every step returned, otherwise `fail` with the serialised classified failure; without steps there is no signal |
| `Engine.SameContext` | src/index.js:23 | every middleware call and step log in an invocation sees the same middleware context |
| `Engine.FailureReported` | src/index.js:29-35 | a thrown RequestError reaches `fail` with its code, message and details intact and nothing is warned; any other failure is warned about once with the value thrown and reaches `fail` as code 500, "Internal server error" |
| `Engine.LaterStepsNeverRun` | src/index.js:24-29 | when step k fails, the invocation is the one the first k steps alone would give: later middleware are never called |
| `Engine.LambdaConnect.constructor` | src/index.js:10-14 | a new pipeline has no steps and its context is the supplied one, or `null` when that is absent or falsy |
| `Engine.LambdaConnect.Use` | src/index.js:16-19 | `use` appends exactly one wrapped step at the end, keeps the earlier ones, and returns the same pipeline |
| `Engine.LambdaConnect.Handler` | src/index.js:21-37 | the step-by-step handler loop does exactly what `Handle` specifies for the current steps and context |
| `Engine.BoundHandler.constructor` | src/index.js:42-43 | the handler is bound to the pipeline it was built over |
| `Engine.BoundHandler.Invoke` | src/index.js:43 | calling the handler runs the pipeline it is bound to |
| `Engine.BoundHandler.Use` | src/index.js:44-47 | the handler's `use` registers the middleware on its pipeline and returns the handler itself |
| `Engine.GetHandler` | src/index.js:41-49 | `getHandler` builds a handler over a fresh, empty pipeline with the given context |
| `Scenarios.InterruptedRun` | test/index.js:153-168 | with the second of three middleware throwing, the third is never called and the only signal is `fail` with the classified error |
| `Scenarios.InterruptedOnFailure` | test/index.js:153-168 | the same, driven through `new LambdaConnect`, three `use` calls and `handler` |
| `Scenarios.IdentityPipe` | test/index.js:199-218 | three identity middleware are called in order, each with the request, and the run returns the request |
| `Scenarios.IdentityRun` | test/index.js:199-224 | their handler calls each middleware on the context with the request, in order, and signals only `succeed` with the request |
| `Scenarios.HandlerWrapsPipeline` | test/index.js:193-224 | through `getHandler`, every chained `use` returns the handler itself and the invocation behaves as above |
| `Scenarios.BareRequestErrorReported` | test/index.js:116-132 | a thrown `new RequestError()` reaches `fail` as just `{"name":"RequestError"}` |

## Left out

- Logger construction (bunyan) and the `log` option: the logger is modelled only by the log events it receives, with level, tag and fields. Log formatting is not modelled.
- Asynchrony and promise scheduling: a step runs to completion before the next starts (that is what `pipeP` guarantees), so steps are synchronous functions. A middleware that returns a promise is represented by how that promise settles.
- `JSON.stringify` text encoding: the payload given to `fail` is the ordered member list of the serialised object. Values nested inside the fields are not encoded further (no `toJSON`, and no dropping of nested `undefined` or functions).
- Object and function field values: a top-level field holding a function is kept as a member, although `JSON.stringify` drops it. Objects in the payload are compared by reference rather than by their JSON text, so two separately built but equal detail objects give different payloads in the model.
- JavaScript numbers are modelled as integers: fractions, `NaN` (which is falsy) and `-0` are not modelled.
- Objects are references (`Ref`) to a heap that is not modelled. So a middleware that mutates the shared context object is not modelled. The model does show that every step receives the identical context reference.
- Middleware that is neither a function nor `undefined`/`null`, such as a number passed to `use`, is not modelled.
- `new LambdaConnect(null)`, which throws a TypeError when the options are read, is not modelled.
- A `succeed`, `fail` or log call that itself throws is not modelled. The completion context and logger are assumed to return normally. If `succeed` threw, the trailing `.catch` would also call `fail`.
- Subclasses of `RequestError` are not modelled. `is` would accept them, and their extra fields would be serialised too.
- Values that ramda's `is(RequestError, error)` accepts without the constructor having run are not modelled: an object whose `constructor` property is `RequestError`, or `Object.create(RequestError.prototype)`. Such values are reported as they are; the second serialises as `{}`, with no `name` member. In the model only constructor-built errors carry the `Raised` tag.
- Concurrent invocations, and `use` called while an invocation is running, are host-level concurrency outside the model.
- `getHandler` patches `use` onto a bound function (the `::` operator). It is modelled as an object with `Invoke` and `Use` operations that share one pipeline.
