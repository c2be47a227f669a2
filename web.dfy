/** The dispatcher (core/web/web.go): `App`, `NewApp`, `SignalShutdown`, `Handle` and its per-request adapter. */
module Web {
  import opened Wrappers
  import opened WebError
  import opened State
  import opened Middleware
  import opened Pipeline

  datatype Signal = SIGTERM

  /** The `shutdown` channel, seen as the sequence of signals sent on it. */
  class ShutdownChannel {
    var signals: seq<Signal>

    constructor ()
      ensures signals == []
    {
      signals := [];
    }

    method Send(s: Signal)
      modifies this
      ensures signals == old(signals) + [s]
    {
      signals := signals + [s];
    }
  }

  /** A registration in the router: the adapter for the composed handler under a method and path. */
  datatype Route = Route(verb: string, path: string, handler: Handler)

  /** What one request through an adapter leaves: signals sent, the reply sink, the log, and a panic that escaped to net/http. */
  datatype Served = Served(signals: seq<Signal>, sink: Sink, log: seq<LogEvent>, escaped: Option<string>)

  /** What `handlerAdapter` does for one request with the fresh `Values{traceId, now}`. */
  function ServeSpec(h: Handler, traceId: string, now: int, req: Request, fx: Foreign,
                     writeErr: Option<Error>, sink: Sink, log: seq<LogEvent>): Served
  {
    var r := RunSpec(h, Env(Some(Meta(traceId, now)), fx, writeErr), req, World(Reply(0, sink), log));
    Served(if r.out.Err? then [SIGTERM] else [], r.st.reply.sink, r.st.log,
           if r.out.Panicked? then Some(r.out.p) else None)
  }

  class App {
    /** The route table of the embedded `httptreemux.ContextMux`, in registration order. */
    var routes: seq<Route>
    const shutdown: ShutdownChannel
    const middlewares: seq<Mw>

    /** `NewApp`: the shutdown channel and the middleware list are kept as given; no route yet. */
    constructor (shutdown: ShutdownChannel, mw: seq<Mw>)
      ensures this.shutdown == shutdown && middlewares == mw && routes == []
    {
      this.shutdown := shutdown;
      middlewares := mw;
      routes := [];
    }

    /** Sends exactly one SIGTERM on the shutdown channel. */
    method SignalShutdown()
      modifies shutdown
      ensures shutdown.signals == old(shutdown.signals) + [SIGTERM]
    {
      shutdown.Send(SIGTERM);
    }

    /**
     * Wraps the local middleware around the handler, then the global
     * middleware around that, and registers exactly one route.
     */
    method Handle(verb: string, path: string, handler: Handler, mw: seq<Mw>)
      modifies this
      ensures routes == old(routes) + [Route(verb, path, Wrap(middlewares, Wrap(mw, handler)))]
      ensures routes[|routes| - 1].handler == Wrap(middlewares + mw, handler)
      ensures Layers(routes[|routes| - 1].handler) == NonNil(middlewares) + NonNil(mw) + Layers(handler)
    {
      var h := WrapMiddleware(mw, handler);
      h := WrapMiddleware(middlewares, h);
      routes := routes + [Route(verb, path, h)];
      WrapAppend(middlewares, mw, handler);
      WrapLayers(middlewares + mw, handler);
      NonNilAppend(middlewares, mw);
    }

    /**
     * `handlerAdapter` for a route's composed handler: fresh `Values` with
     * status 0, the chain run with them, one shutdown signal on any error
     * that comes out and none otherwise; the adapter writes nothing itself.
     */
    method Adapter(handler: Handler, traceId: string, now: int, req: Request,
                   w: ResponseWriter, log: Log, fx: Foreign) returns (escaped: Option<string>)
      modifies shutdown, w, log
      ensures var s := ServeSpec(handler, traceId, now, req, fx, w.writeErr, old(w.Contents()), old(log.lines));
        && shutdown.signals == old(shutdown.signals) + s.signals
        && w.Contents() == s.sink
        && log.lines == s.log
        && escaped == s.escaped
    {
      var v := new Values(traceId, now);
      var out := Run(handler, v, req, w, log, fx);
      escaped := None;
      if out.Panicked? {
        escaped := Some(out.p);   // unwinds into net/http
      } else if out.Err? {
        SignalShutdown();
      }
    }
  }

  /** The adapter signals shutdown once for any error reaching it, and never otherwise. */
  lemma ServeSignalsIff(h: Handler, traceId: string, now: int, req: Request, fx: Foreign,
                        writeErr: Option<Error>, sink: Sink, log: seq<LogEvent>)
    ensures var r := RunSpec(h, Env(Some(Meta(traceId, now)), fx, writeErr), req, World(Reply(0, sink), log));
      var s := ServeSpec(h, traceId, now, req, fx, writeErr, sink, log);
      && |s.signals| <= 1
      && (|s.signals| == 1 <==> r.out.Err?)
      && s.sink == r.st.reply.sink && s.log == r.st.log
  {
  }
}
