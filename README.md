# webserver request core, modelled in Dafny

This project models the request-processing core of a small Go web service framework:

- the middleware composition of `core/web`;
- the `App` dispatcher, including its per-request adapter and the shutdown channel;
- the JSON response encoder;
- the three cross-cutting middlewares of `services/middleware`: Logger, Errors and Panics;
- the concrete chain that `app/api/handlers` registers for `GET /readiness`.

Go passes handlers and middleware around as closures. Here they are symbolic:

- a middleware list is a `seq<Mw>` whose entries are `LoggerMw`, `ErrorsMw`, `PanicsMw` or a nil entry (`NilMw`);
- a handler is a target `Behaviour` wrapped in layers;
- the target can return nil, return an error, answer with `Respond`, or panic.

The state one request touches is made of Dafny classes:

- `Values`, whose `statusCode` is the only mutable field;
- `ResponseWriter`, which records the header map, every `WriteHeader` status in order, and the body bytes;
- `Log`, a sequence of structured log events;
- `ShutdownChannel`, the sequence of signals sent.

The context lookup `ctx.Value(KeyValues).(*Values)` is a nullable `Values?` that is passed explicitly. `null` means the lookup failed.

Every imperative method is proved equal to a pure specification function over a value picture of the same state (`World`, `Reply`, `Sink`):

- `Respond` and `RespondError` against `RespondSpec` and `RespondErrorSpec`;
- the interpreter `Run` and the layer methods `Logger`, `Errors`, `Panics` against `RunSpec` and the per-layer functions;
- `App.Adapter` against `ServeSpec`.

The lemmas about those functions state what the code promises. The main ones:

- middleware composition: nil skipping, splitting over concatenation, and strict LIFO nesting;
- the sink and the log are append-only through any chain;
- a panic escapes a chain exactly when the target panics, no Panics layer encloses it, and `Values` is present or the handler is the bare target;
- LIFO nesting as the log shows it: `k` Logger layers log their `k` start lines, then their `k` completion lines;
- the exact effect of `GET /readiness`, a panic, an ordinary error, a shutdown error and a successful answer through Logger → Errors → Panics;
- the escalation rule of the whole chain.

Notes on the code as written, which the model follows:

- `RespondError` does not return after it answers a trusted error (core/web/response.go:54-73). When that first answer succeeds, it goes on to a second `Respond` with status 500. A trusted 404 whose answer succeeds therefore writes two status lines, 404 then 500, appends both JSON bodies, and leaves `StatusCode` at 500. `RespondErrorTrustedFallsThrough` states this. When the trusted answer fails, because marshalling fails (core/web/response.go:32-33) or the write fails (core/web/response.go:43-44), `RespondError` returns that error at once and issues no 500 answer (core/web/response.go:60-62). A failed write appends no body. `RespondErrorTrustedFails` states this.
- Errors swallows every error that is not a shutdown error once it has rendered it (services/middleware/errors.go:39-44). So a target that returns an ordinary error, trusted or opaque, makes the adapter send no shutdown signal when its rendering succeeds. The adapter signals only for a shutdown error, or for an error that `RespondError` itself returns (`ChainEscalation`). A fail-fast reading, in which every failed request leads to a shutdown request, does not hold for this chain.
- A target that answers with status 204 through `Respond` writes only the 204 status line. The readiness handler actually registered returns nil and writes nothing, so the recorded status stays 0.

## Model

| member | source | states |
|---|---|---|
| WebError.Cause | core/web/response.go:54 | the cause of an error carries no wrapper, and an unwrapped error is its own cause |
| WebError.PanicError | services/middleware/panics.go:33 | a recovered panic value p becomes the error "panic: p", which is neither a shutdown nor a trusted error |
| State.Values.constructor | core/web/web.go:66-69 | a request's Values carry the given trace id and time, and StatusCode starts at 0 |
| State.ResponseWriter.SetHeader | core/web/response.go:37 | setting a header changes only that header entry |
| State.ResponseWriter.WriteHeader | core/web/response.go:40 | each status write is appended to the recorded status lines, and nothing else changes |
| State.ResponseWriter.Write | core/web/response.go:43-45 | a write appends exactly the bytes, or returns the writer's error and leaves the body as it was |
| State.Log.Append | services/middleware/logger.go:28 | a log call appends exactly one event |
| Middleware.WrapMiddleware | core/web/middleware.go:9-23 | the backward loop builds m0(m1(...mn(h))) with nils skipped: each non-nil entry becomes one layer, in list order, around the unchanged handler |
| Middleware.WrapLayers | core/web/middleware.go:15-20 | the layers of the wrapped handler are the non-nil entries in list order, followed by the handler's own layers, and the target is unchanged |
| Middleware.WrapIdentity | core/web/middleware.go:15-22 | a list with no non-nil entry, including the empty list, returns the handler unchanged |
| Middleware.WrapSkipsNil | core/web/middleware.go:16-19 | wrapping a list equals wrapping the same list with its nil entries removed |
| Middleware.WrapAppend | core/web/middleware.go:15-20 | wrap(a ++ b, h) == wrap(a, wrap(b, h)) |
| Middleware.WrapNesting | core/web/middleware.go:11-14 | the non-nil middlewares are entered in list order, then the target runs, then they are left in reverse list order |
| Pipeline.LoggersNest | core/web/middleware.go:11-20 | k Logger layers wrapped around a target that returns nil log their k start lines, then their k completion lines with the unchanged status, and the result is nil |
| Response.Respond | core/web/response.go:12-48 | the method does exactly what RespondSpec describes to the Values status and the writer |
| Response.RespondError | core/web/response.go:51-74 | the method does exactly what RespondErrorSpec describes: a trusted answer, then the 500 answer |
| Response.RespondWithoutValues | core/web/response.go:16-19 | without Values, Respond and RespondError (for every error) return the shutdown error and touch neither the status nor the writer |
| Response.RespondCases | core/web/response.go:22-47 | the status is recorded first, even when marshalling fails; a 204 writes only its status line; a marshal failure is returned with nothing written; otherwise Content-Type is application/json, one status line, exactly the marshalled bytes, and the write's error |
| Response.RespondNilIff | core/web/response.go:25-47 | Respond returns nil exactly when Values is present and either the status is 204 or marshalling and writing both succeed |
| Response.RespondAppends | core/web/response.go:37-45 | Respond only appends status lines and body bytes |
| Response.RespondErrorOpaque | core/web/response.go:65-73 | an error whose cause is not trusted gets one Respond with 500 and {Error: "Internal Server Error"} and no fields, the same whatever the error says |
| Response.RespondErrorTrustedFallsThrough | core/web/response.go:54-73 | when a trusted answer succeeds, RespondError falls through to the 500 answer: status lines [status, 500], both bodies, StatusCode 500, result nil |
| Response.RespondErrorTrustedFails | core/web/response.go:60-62 | a failure of the trusted answer is returned at once: RespondError's result and reply state are exactly that Respond's, with that error's status recorded, at most one status line and no 500 answer |
| Response.RespondErrorNilIff | core/web/response.go:54-73 | RespondError returns nil exactly when every Respond it issues succeeds, and StatusCode is then 500 |
| Response.RespondResultIgnoresState | core/web/response.go:16-47 | the error Respond returns depends only on the environment, the payload and the code, not on the reply so far |
| Response.RespondErrorResultIgnoresState | core/web/response.go:51-74 | the error RespondError returns depends only on the environment and the error, not on the reply so far |
| Response.RespondErrorAppends | core/web/response.go:54-73 | RespondError only appends status lines and body bytes |
| Pipeline.CallBase | core/web/web.go:27-28 | a target handler returns nil, returns its error, returns the result of its Respond, or panics, as its behaviour says |
| Pipeline.Run | core/web/web.go:72 | running a composed handler does exactly what RunSpec describes, layer by layer |
| Pipeline.Logger | services/middleware/logger.go:20-38 | the Logger inner handler does exactly what LoggerSpec describes |
| Pipeline.Errors | services/middleware/errors.go:20-45 | the Errors inner handler does exactly what ErrorsSpec describes |
| Pipeline.Panics | services/middleware/panics.go:22-41 | the Panics inner handler, with its deferred recover, does exactly what PanicsSpec describes |
| Pipeline.LayerNeedsValues | services/middleware/logger.go:23-26 | without Values, each layer (Logger, Errors, Panics: errors.go:23-26, panics.go:25-28) returns the shutdown error before any log line, and the inner handler is not called |
| Pipeline.RunAppends | services/middleware/errors.go:29-35 | through any chain, log lines, status lines and body bytes are only appended |
| Pipeline.LoggerBrackets | services/middleware/logger.go:28-37 | Logger returns the inner result unchanged and leaves StatusCode and the writer unchanged. The start line comes before everything the inner call logs. The completion line follows it, with the same trace id, method, path and address, and with the StatusCode the inner call left. On a panic no completion line is written |
| Pipeline.ErrorsPassesNil | services/middleware/errors.go:29-44 | a nil result from the inner call is returned as nil by Errors, with nothing written or logged |
| Pipeline.ErrorsRenders | services/middleware/errors.go:29-44 | an inner error gets one log line with the trace id and one RespondError. A RespondError failure is returned instead. Otherwise a shutdown error is returned unchanged and any other error is swallowed |
| Pipeline.PanicsRecovers | services/middleware/panics.go:31-38 | a panic p becomes the returned error "panic: p", neither trusted nor shutdown, plus one log line with the trace id and stack; the reply state is the inner call's |
| Pipeline.PanicsPassesReturn | services/middleware/panics.go:40 | nothing Panics returns is a panic, and a normal return passes through unchanged with no log line |
| Pipeline.PanicEscapesIff | services/middleware/panics.go:30-40 | a panic comes out of a composed handler exactly when the target panics, no Panics layer encloses it, and Values is present or no layer looks for it |
| Web.ShutdownChannel.Send | core/web/web.go:51 | a send appends exactly one signal |
| Web.App.constructor | core/web/web.go:39-47 | NewApp keeps the given shutdown channel and middleware list unchanged, with no route yet |
| Web.App.SignalShutdown | core/web/web.go:50-52 | exactly one SIGTERM is sent on the shutdown channel |
| Web.App.Handle | core/web/web.go:55-78 | exactly one route is registered under (method, path), and its handler is wrap(global, wrap(local, h)) == wrap(global ++ local, h), with local middleware closer to the target |
| Web.App.Adapter | core/web/web.go:63-76 | runs the chain with fresh Values (status 0) and sends one shutdown signal exactly when the chain returns an error; it writes nothing itself; a panic unwinds out of it |
| Web.ServeSignalsIff | core/web/web.go:72-75 | at most one signal per request, sent exactly when the chain returns an error, and the sink and log are the chain's |
| Handlers.API | app/api/handlers/handlers.go:13-25 | the App has the global middleware Logger, Errors, Panics and exactly one route, GET /readiness, to the readiness check wrapped in them |
| Handlers.GlobalOrder | app/api/handlers/handlers.go:14-19 | Logger is the outermost layer and Panics the innermost, directly around the target |
| Handlers.InnerOutcome | services/middleware/panics.go:31-40 | below Errors the chain never panics, and it fails exactly with the target's failure: its error, its Respond error, or the panic error |
| Handlers.ChainEscalation | core/web/web.go:72-75 | through the API chain no panic escapes, and one SIGTERM is sent exactly when the target's failure is a shutdown error or its rendering fails |
| Handlers.ReadinessThroughChain | app/api/handlers/check.go:14-16 | GET /readiness returns nil, writes nothing, logs the start line and a completion line with status 0, and sends no shutdown signal |
| Handlers.PanicThroughChain | app/api/handlers/handlers.go:16-18 | a panicking target is converted by Panics, rendered as a 500 by Errors and swallowed; the sink gets the JSON Content-Type, one 500 status line and the 500 body; Logger reports 500; no shutdown when the rendering succeeds |
| Handlers.ErrorThroughChain | services/middleware/errors.go:39-44 | a non-shutdown error is rendered and swallowed, with no shutdown signal; the completion line reports the 500 that RespondError recorded |
| Handlers.ShutdownThroughChain | services/middleware/errors.go:39-41 | a shutdown error is rendered, passed out through Logger, and causes exactly one shutdown signal, whether or not rendering succeeded |
| Handlers.RespondThroughChain | services/middleware/logger.go:34 | a successful Respond(data, status) through the chain sends no signal, and the completion line reports that status |
| Handlers.ServeReadiness | app/api/handlers/handlers.go:21-22 | a readiness request served through an App built by API sends no signal, writes no status line or body, and logs exactly the two lines |

## Left out

- app/api/main.go is not part of this model: configuration, expvar, the debug listener, OS signal handling, `ListenAndServe` and the timed graceful shutdown are I/O and concurrency.
- The shutdown channel is a sequence of sent signals: its capacity, blocking sends and the reader are concurrency concerns.
- Routing by `httptreemux` is an abstract registration record (`Route`). Matching requests to routes, and duplicate-registration panics, belong to the router. The adapter is called with the route's composed handler.
- `uuid.New`, `time.Now`, `time.Since`, `debug.Stack` and `json.Marshal` are parameters. Trace id and start time are arguments of the adapter. The elapsed time is a clock value minus `Values.Now`. The stack is a string. Marshalling is an arbitrary function from payload to bytes or error.
- `http.StatusText(500)` is the constant "Internal Server Error". Log formatting strings are not modelled: log lines are structured events.
- The `http.ResponseWriter` records the calls made on it. net/http's own rules are not modelled: that the first status write wins, and that headers set after it are ignored. A writer whose writes fail fails every write and appends nothing.
- The declarations of `web.Error`, `NewShutdownError`, `IsShutdown` and `ErrorResponse` are not part of this model. Their behaviour is fixed from their uses: a trusted error carries message, status and fields; `IsShutdown` and the trusted check look through `errors.Cause`.
- Go's `context.Context` is replaced by the explicit, possibly null `Values` reference. Requests are modelled one at a time.
- A middleware layer never holds a nil entry (`Live`), because `wrapMiddleware` never applies one. Calling a nil handler is therefore not modelled.
- Handlers are symbolic: a target's behaviour is one of four kinds, and middleware is one of the three in services/middleware. User-supplied closures beyond these are not modelled.
