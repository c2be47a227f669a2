/**
 * The application's API (app/api/handlers): the global chain Logger,
 * Errors, Panics around the no-op readiness check at GET /readiness, and
 * what one request through that chain does.
 */
module Handlers {
  import opened Wrappers
  import opened WebError
  import opened State
  import opened Middleware
  import opened Response
  import opened Pipeline
  import opened Web

  /** `Check.readiness` (app/api/handlers/check.go): returns nil. */
  const Readiness: Behaviour := ReturnOk

  /** The global middleware that `API` hands to `NewApp`, outermost first. */
  const GlobalMiddleware: seq<Mw> := [LoggerMw, ErrorsMw, PanicsMw]

  /** The handler the App runs for a route whose target behaves as `b`. */
  function ApiChain(b: Behaviour): Handler {
    Wrap(GlobalMiddleware, Base(b))
  }

  method API(shutdown: ShutdownChannel) returns (app: App)
    ensures fresh(app)
    ensures app.shutdown == shutdown && app.middlewares == GlobalMiddleware
    ensures app.routes == [Route("GET", "/readiness", ApiChain(Readiness))]
  {
    app := new App(shutdown, GlobalMiddleware);
    app.Handle("GET", "/readiness", Base(Readiness), []);
    assert GlobalMiddleware + [] == GlobalMiddleware;
  }

  /** Logger is the outermost layer and Panics the innermost, right around the target. */
  lemma GlobalOrder(b: Behaviour)
    ensures ApiChain(b) == Layer(LoggerMw, Layer(ErrorsMw, Layer(PanicsMw, Base(b))))
    ensures Layers(ApiChain(b)) == GlobalMiddleware && Target(ApiChain(b)) == b
  {
    var g := GlobalMiddleware;
    assert g[1..] == [ErrorsMw, PanicsMw] && g[1..][1..] == [PanicsMw] && g[1..][1..][1..] == [];
    assert Wrap([PanicsMw], Base(b)) == Layer(PanicsMw, Base(b));
    assert Wrap([ErrorsMw, PanicsMw], Base(b)) == Layer(ErrorsMw, Layer(PanicsMw, Base(b)));
    WrapLayers(GlobalMiddleware, Base(b));
  }

  function RequestEnv(traceId: string, now: int, fx: Foreign, writeErr: Option<Error>): Env {
    Env(Some(Meta(traceId, now)), fx, writeErr)
  }

  /**
   * The failure the target hands on to the Errors layer once Panics has run:
   * none, its own error, the error of its `Respond`, or the panic error.
   */
  function Failure(b: Behaviour, env: Env): Option<Error> {
    match b
    case ReturnOk => None
    case ReturnErr(e) => Some(e)
    case RespondWith(data, status) => RespondSpec(env, data, status, Reply(0, Sink(map[], [], []))).err
    case Panic(p) => Some(PanicError(p))
  }

  /** One request through the chain, layer by layer: Logger, then Errors, then Panics, then the target. */
  lemma ChainUnfolds(b: Behaviour, env: Env, req: Request, st: World)
    requires env.meta.Some?
    ensures var meta := env.meta.value;
      var started := st.(log := st.log + [StartedLine(meta.traceId, req.verb, req.path, req.remoteAddr)]);
      && RunSpec(ApiChain(b), env, req, st) == LoggerSpec(Layer(ErrorsMw, Layer(PanicsMw, Base(b))), env, req, st)
      && RunSpec(Layer(ErrorsMw, Layer(PanicsMw, Base(b))), env, req, started) == ErrorsSpec(Layer(PanicsMw, Base(b)), env, req, started)
      && RunSpec(Layer(PanicsMw, Base(b)), env, req, started) == PanicsSpec(Base(b), env, req, started)
      && RunSpec(Base(b), env, req, started) == BaseSpec(b, env, started)
  {
    GlobalOrder(b);
  }

  /** Panics around the target, with `Values` present: the failure above, and never a panic. */
  lemma InnerOutcome(b: Behaviour, env: Env, req: Request, st: World)
    requires env.meta.Some?
    ensures var r := RunSpec(Layer(PanicsMw, Base(b)), env, req, st);
      && !r.out.Panicked?
      && (r.out.Ok? <==> Failure(b, env).None?)
      && (r.out.Err? ==> Failure(b, env) == Some(r.out.e))
  {
    assert RunSpec(Layer(PanicsMw, Base(b)), env, req, st) == PanicsSpec(Base(b), env, req, st);
    assert RunSpec(Base(b), env, req, st) == BaseSpec(b, env, st);
    if b.RespondWith? {
      RespondResultIgnoresState(env, b.data, b.status, st.reply, Reply(0, Sink(map[], [], [])));
    }
  }

  /**
   * The escalation rule of the whole chain: one request sends one SIGTERM
   * exactly when the target fails with a shutdown error or with an error
   * whose rendering fails, and none otherwise; no panic ever escapes.
   */
  lemma ChainEscalation(b: Behaviour, traceId: string, now: int, req: Request, fx: Foreign,
                        writeErr: Option<Error>, sink: Sink, log: seq<LogEvent>)
    ensures var env := RequestEnv(traceId, now, fx, writeErr);
      var s := ServeSpec(ApiChain(b), traceId, now, req, fx, writeErr, sink, log);
      && s.escaped == None
      && s.signals == (if Failure(b, env).Some?
                          && (IsShutdown(Failure(b, env).value)
                              || RespondErrorSpec(env, Failure(b, env).value, Reply(0, sink)).err.Some?)
                       then [SIGTERM] else [])
  {
    var env := RequestEnv(traceId, now, fx, writeErr);
    var meta := env.meta.value;
    GlobalOrder(b);
    var st := World(Reply(0, sink), log);
    var started := st.(log := st.log + [StartedLine(meta.traceId, req.verb, req.path, req.remoteAddr)]);
    var inner := RunSpec(Layer(PanicsMw, Base(b)), env, req, started);
    InnerOutcome(b, env, req, started);
    if inner.out.Err? {
      RespondErrorResultIgnoresState(env, inner.out.e, inner.st.reply, Reply(0, sink));
    }
    var errs := ErrorsSpec(Layer(PanicsMw, Base(b)), env, req, started);
    assert RunSpec(Layer(ErrorsMw, Layer(PanicsMw, Base(b))), env, req, started) == errs;
    assert RunSpec(ApiChain(b), env, req, st) == LoggerSpec(Layer(ErrorsMw, Layer(PanicsMw, Base(b))), env, req, st);
  }

  /**
   * GET /readiness through the chain: nil, nothing written to the response,
   * `StatusCode` still 0 and logged as 0, no shutdown signal.
   */
  lemma ReadinessThroughChain(traceId: string, now: int, req: Request, fx: Foreign,
                              writeErr: Option<Error>, sink: Sink, log: seq<LogEvent>)
    ensures var s := ServeSpec(ApiChain(Readiness), traceId, now, req, fx, writeErr, sink, log);
      && s.signals == [] && s.escaped == None
      && s.sink == sink
      && s.log == log + [StartedLine(traceId, req.verb, req.path, req.remoteAddr),
                         CompletedLine(traceId, req.verb, req.path, req.remoteAddr, 0, fx.clock - now)]
  {
    GlobalOrder(Readiness);
  }

  /**
   * A panicking target: Panics makes it "panic: p", Errors renders it as a
   * 500 and swallows it, and Logger reports the 500; with the rendering
   * successful no shutdown is signalled.
   */
  lemma PanicThroughChain(p: string, traceId: string, now: int, req: Request, fx: Foreign,
                          writeErr: Option<Error>, sink: Sink, log: seq<LogEvent>)
    requires writeErr.None? && fx.marshal(InternalErrorBody).Encoded?
    ensures var s := ServeSpec(ApiChain(Panic(p)), traceId, now, req, fx, writeErr, sink, log);
      && s.signals == [] && s.escaped == None
      && s.sink.header == sink.header[ContentType := ApplicationJson]
      && s.sink.statusWrites == sink.statusWrites + [StatusInternalServerError]
      && s.sink.body == sink.body + fx.marshal(InternalErrorBody).bytes
      && s.log == log + [StartedLine(traceId, req.verb, req.path, req.remoteAddr),
                         PanicLine(traceId, fx.stack),
                         ErrorLine(traceId, PanicError(p)),
                         CompletedLine(traceId, req.verb, req.path, req.remoteAddr, StatusInternalServerError, fx.clock - now)]
  {
    ChainUnfolds(Panic(p), RequestEnv(traceId, now, fx, writeErr), req, World(Reply(0, sink), log));
    GlobalOrder(Panic(p));
    var env := RequestEnv(traceId, now, fx, writeErr);
    RespondErrorOpaque(env, PanicError(p), Reply(0, sink));
    RespondCases(env, InternalErrorBody, StatusInternalServerError, Reply(0, sink));
  }

  /**
   * A target returning a non-shutdown error: rendered and swallowed, no
   * shutdown signal, and the completion line reports the status that
   * `RespondError` recorded (500 once the rendering succeeded).
   */
  lemma ErrorThroughChain(e: Error, traceId: string, now: int, req: Request, fx: Foreign,
                          writeErr: Option<Error>, sink: Sink, log: seq<LogEvent>)
    requires !IsShutdown(e)
    requires RespondErrorSpec(RequestEnv(traceId, now, fx, writeErr), e, Reply(0, sink)).err.None?
    ensures var rendered := RespondErrorSpec(RequestEnv(traceId, now, fx, writeErr), e, Reply(0, sink));
      var s := ServeSpec(ApiChain(ReturnErr(e)), traceId, now, req, fx, writeErr, sink, log);
      && s.signals == [] && s.escaped == None
      && s.sink == rendered.reply.sink
      && rendered.reply.status == StatusInternalServerError
      && s.log == log + [StartedLine(traceId, req.verb, req.path, req.remoteAddr),
                         ErrorLine(traceId, e),
                         CompletedLine(traceId, req.verb, req.path, req.remoteAddr, StatusInternalServerError, fx.clock - now)]
  {
    ChainUnfolds(ReturnErr(e), RequestEnv(traceId, now, fx, writeErr), req, World(Reply(0, sink), log));
    GlobalOrder(ReturnErr(e));
    RespondErrorNilIff(RequestEnv(traceId, now, fx, writeErr), e, Reply(0, sink));
  }

  /**
   * A target returning a shutdown error: rendered, passed on by Errors and
   * Logger, and exactly one shutdown signal, whether or not the rendering
   * succeeded.
   */
  lemma ShutdownThroughChain(e: Error, traceId: string, now: int, req: Request, fx: Foreign,
                             writeErr: Option<Error>, sink: Sink, log: seq<LogEvent>)
    requires IsShutdown(e)
    ensures var rendered := RespondErrorSpec(RequestEnv(traceId, now, fx, writeErr), e, Reply(0, sink));
      var s := ServeSpec(ApiChain(ReturnErr(e)), traceId, now, req, fx, writeErr, sink, log);
      && s.signals == [SIGTERM] && s.escaped == None
      && s.sink == rendered.reply.sink
      && s.log == log + [StartedLine(traceId, req.verb, req.path, req.remoteAddr),
                         ErrorLine(traceId, e),
                         CompletedLine(traceId, req.verb, req.path, req.remoteAddr, rendered.reply.status, fx.clock - now)]
  {
    ChainUnfolds(ReturnErr(e), RequestEnv(traceId, now, fx, writeErr), req, World(Reply(0, sink), log));
    GlobalOrder(ReturnErr(e));
  }

  /**
   * A target answering with `Respond(data, status)` successfully: no signal,
   * and the completion line reports that status.
   */
  lemma RespondThroughChain(data: Payload, status: int, traceId: string, now: int, req: Request, fx: Foreign,
                            writeErr: Option<Error>, sink: Sink, log: seq<LogEvent>)
    requires RespondSpec(RequestEnv(traceId, now, fx, writeErr), data, status, Reply(0, sink)).err.None?
    ensures var answered := RespondSpec(RequestEnv(traceId, now, fx, writeErr), data, status, Reply(0, sink));
      var s := ServeSpec(ApiChain(RespondWith(data, status)), traceId, now, req, fx, writeErr, sink, log);
      && s.signals == [] && s.escaped == None
      && s.sink == answered.reply.sink
      && s.log == log + [StartedLine(traceId, req.verb, req.path, req.remoteAddr),
                         CompletedLine(traceId, req.verb, req.path, req.remoteAddr, status, fx.clock - now)]
  {
    ChainUnfolds(RespondWith(data, status), RequestEnv(traceId, now, fx, writeErr), req, World(Reply(0, sink), log));
    GlobalOrder(RespondWith(data, status));
    RespondCases(RequestEnv(traceId, now, fx, writeErr), data, status, Reply(0, sink));
  }

  /**
   * One GET /readiness served through an App built by `API`: no shutdown
   * signal, no status line, no body, and exactly the start and completion
   * lines, the latter with status 0.
   */
  method ServeReadiness(traceId: string, now: int, req: Request, fx: Foreign)
    returns (signals: seq<Signal>, statusWrites: seq<int>, body: seq<byte>, lines: seq<LogEvent>)
    ensures signals == [] && statusWrites == [] && body == []
    ensures lines == [StartedLine(traceId, req.verb, req.path, req.remoteAddr),
                      CompletedLine(traceId, req.verb, req.path, req.remoteAddr, 0, fx.clock - now)]
  {
    var channel := new ShutdownChannel();
    var app := API(channel);
    var w := new ResponseWriter(None);
    var log := new Log();
    var escaped := app.Adapter(app.routes[0].handler, traceId, now, req, w, log, fx);
    ReadinessThroughChain(traceId, now, req, fx, None, Sink(map[], [], []), []);
    signals, statusWrites, body, lines := channel.signals, w.statusWrites, w.body, log.lines;
  }
}
