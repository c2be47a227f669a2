/**
 * The three cross-cutting middlewares of services/middleware (the inner
 * handler `h` of Logger, Errors and Panics), the target handlers, and the
 * interpreter that runs a composed handler.  Every method is proved equal
 * to the specification function of the same layer.
 */
module Pipeline {
  import opened Wrappers
  import opened WebError
  import opened State
  import opened Middleware
  import opened Response

  /** How a handler call ends: it returns nil, returns an error, or a panic is unwinding out of it. */
  datatype Outcome = Ok | Err(e: Error) | Panicked(p: string)

  datatype Ran = Ran(out: Outcome, st: World)

  function ToOutcome(err: Option<Error>): (o: Outcome)
    ensures o.Ok? <==> err.None?
    ensures err.Some? ==> o == Err(err.value)
  {
    if err.None? then Ok else Err(err.value)
  }

  /** A target behaviour, run. */
  function BaseSpec(b: Behaviour, env: Env, st: World): Ran {
    match b
    case ReturnOk => Ran(Ok, st)
    case ReturnErr(e) => Ran(Err(e), st)
    case RespondWith(data, status) =>
      var r := RespondSpec(env, data, status, st.reply);
      Ran(ToOutcome(r.err), st.(reply := r.reply))
    case Panic(p) => Ran(Panicked(p), st)
  }

  /** A composed handler, run. */
  function RunSpec(h: Handler, env: Env, req: Request, st: World): Ran
    decreases h, 0
  {
    match h
    case Base(b) => BaseSpec(b, env, st)
    case Layer(m, inner) =>
      // a layer is never NilMw, so the last branch is PanicsMw
      if m == LoggerMw then LoggerSpec(inner, env, req, st)
      else if m == ErrorsMw then ErrorsSpec(inner, env, req, st)
      else PanicsSpec(inner, env, req, st)
  }

  /** services/middleware/logger.go: a start line, the inner call, a completion line with the recorded status. */
  function LoggerSpec(inner: Handler, env: Env, req: Request, st: World): Ran
    decreases inner, 1
  {
    match env.meta
    case None => Ran(Err(MissingValues), st)
    case Some(m) =>
      var started := st.(log := st.log + [StartedLine(m.traceId, req.verb, req.path, req.remoteAddr)]);
      var r := RunSpec(inner, env, req, started);
      if r.out.Panicked? then r
      else
        var done := CompletedLine(m.traceId, req.verb, req.path, req.remoteAddr, r.st.reply.status, env.fx.clock - m.now);
        Ran(r.out, r.st.(log := r.st.log + [done]))
  }

  /** services/middleware/errors.go: an error from the inner call is logged and rendered; only a shutdown error goes on. */
  function ErrorsSpec(inner: Handler, env: Env, req: Request, st: World): Ran
    decreases inner, 1
  {
    match env.meta
    case None => Ran(Err(MissingValues), st)
    case Some(m) =>
      var r := RunSpec(inner, env, req, st);
      match r.out
      case Err(e) =>
        var rendered := RespondErrorSpec(env, e, r.st.reply);
        var st' := World(rendered.reply, r.st.log + [ErrorLine(m.traceId, e)]);
        if rendered.err.Some? then Ran(Err(rendered.err.value), st')
        else if IsShutdown(e) then Ran(Err(e), st')
        else Ran(Ok, st')
      case _ => r
  }

  /** services/middleware/panics.go: a panic of the inner call becomes an opaque error and a log line with the stack. */
  function PanicsSpec(inner: Handler, env: Env, req: Request, st: World): Ran
    decreases inner, 1
  {
    match env.meta
    case None => Ran(Err(MissingValues), st)
    case Some(m) =>
      var r := RunSpec(inner, env, req, st);
      match r.out
      case Panicked(p) => Ran(Err(PanicError(p)), r.st.(log := r.st.log + [PanicLine(m.traceId, env.fx.stack)]))
      case _ => r
  }

  method CallBase(b: Behaviour, v: Values?, w: ResponseWriter, log: Log, fx: Foreign) returns (out: Outcome)
    modifies v, w
    ensures Ran(out, Snapshot(v, w, log)) == BaseSpec(b, EnvOf(v, w, fx), old(Snapshot(v, w, log)))
  {
    match b
    case ReturnOk => out := Ok;
    case ReturnErr(e) => out := Err(e);
    case RespondWith(data, status) =>
      var err := Respond(v, w, data, status, fx);
      out := ToOutcome(err);
    case Panic(p) => out := Panicked(p);
  }

  /** Calls a composed handler with the request's context (`v`, `null` when it carries no `Values`). */
  method Run(h: Handler, v: Values?, req: Request, w: ResponseWriter, log: Log, fx: Foreign) returns (out: Outcome)
    modifies v, w, log
    decreases h, 0
    ensures Ran(out, Snapshot(v, w, log)) == RunSpec(h, EnvOf(v, w, fx), req, old(Snapshot(v, w, log)))
  {
    match h
    case Base(b) => out := CallBase(b, v, w, log, fx);
    case Layer(m, inner) =>
      if m == LoggerMw {
        out := Logger(inner, v, req, w, log, fx);
      } else if m == ErrorsMw {
        out := Errors(inner, v, req, w, log, fx);
      } else {
        out := Panics(inner, v, req, w, log, fx);
      }
  }

  method Logger(inner: Handler, v: Values?, req: Request, w: ResponseWriter, log: Log, fx: Foreign) returns (out: Outcome)
    modifies v, w, log
    decreases inner, 1
    ensures Ran(out, Snapshot(v, w, log)) == LoggerSpec(inner, EnvOf(v, w, fx), req, old(Snapshot(v, w, log)))
  {
    if v == null {
      return Err(MissingValues);
    }
    log.Append(StartedLine(v.traceId, req.verb, req.path, req.remoteAddr));
    out := Run(inner, v, req, w, log, fx);
    if out.Panicked? {
      return;   // the panic unwinds past the completion line
    }
    log.Append(CompletedLine(v.traceId, req.verb, req.path, req.remoteAddr, v.statusCode, fx.clock - v.now));
  }

  method Errors(inner: Handler, v: Values?, req: Request, w: ResponseWriter, log: Log, fx: Foreign) returns (out: Outcome)
    modifies v, w, log
    decreases inner, 1
    ensures Ran(out, Snapshot(v, w, log)) == ErrorsSpec(inner, EnvOf(v, w, fx), req, old(Snapshot(v, w, log)))
  {
    if v == null {
      return Err(MissingValues);
    }
    out := Run(inner, v, req, w, log, fx);
    if out.Err? {
      var e := out.e;
      log.Append(ErrorLine(v.traceId, e));
      var err := RespondError(v, w, e, fx);
      if err.Some? {
        return Err(err.value);
      }
      if IsShutdown(e) {
        return Err(e);
      }
      return Ok;
    }
  }

  method Panics(inner: Handler, v: Values?, req: Request, w: ResponseWriter, log: Log, fx: Foreign) returns (out: Outcome)
    modifies v, w, log
    decreases inner, 1
    ensures Ran(out, Snapshot(v, w, log)) == PanicsSpec(inner, EnvOf(v, w, fx), req, old(Snapshot(v, w, log)))
  {
    if v == null {
      return Err(MissingValues);
    }
    out := Run(inner, v, req, w, log, fx);
    if out.Panicked? {
      // the deferred recover
      out := Err(PanicError(out.p));
      log.Append(PanicLine(v.traceId, fx.stack));
    }
  }

  /** The request's state only grows: log lines, status lines and body bytes are appended, never removed. */
  predicate Extends(a: World, b: World) {
    && a.log <= b.log
    && a.reply.sink.statusWrites <= b.reply.sink.statusWrites
    && a.reply.sink.body <= b.reply.sink.body
  }

  /** Every layer refuses to run without `Values`: a shutdown error, and the inner handler is not called. */
  lemma LayerNeedsValues(m: Live, inner: Handler, env: Env, req: Request, st: World)
    requires env.meta.None?
    ensures RunSpec(Layer(m, inner), env, req, st) == Ran(Err(MissingValues), st)
  {
  }

  /** Running any composed handler keeps the log and the response sink append-only. */
  lemma {:induction false} RunAppends(h: Handler, env: Env, req: Request, st: World)
    ensures Extends(st, RunSpec(h, env, req, st).st)
    decreases h
  {
    match h
    case Base(b) =>
      if b.RespondWith? {
        RespondAppends(env, b.data, b.status, st.reply);
      }
    case Layer(m, inner) =>
      if env.meta.Some? {
        var meta := env.meta.value;
        if m == LoggerMw {
          var started := st.(log := st.log + [StartedLine(meta.traceId, req.verb, req.path, req.remoteAddr)]);
          RunAppends(inner, env, req, started);
        } else if m == ErrorsMw {
          RunAppends(inner, env, req, st);
          var r := RunSpec(inner, env, req, st);
          if r.out.Err? {
            RespondErrorAppends(env, r.out.e, r.st.reply);
          }
        } else {
          RunAppends(inner, env, req, st);
        }
      }
  }

  /**
   * Logger passes the inner result through unchanged, never writes the reply
   * state, and adds exactly two lines: the start line before everything the
   * inner call logs and the completion line, carrying the status the inner
   * call left, after it.
   */
  lemma LoggerBrackets(inner: Handler, env: Env, req: Request, st: World)
    requires env.meta.Some?
    ensures var meta := env.meta.value;
      var started := StartedLine(meta.traceId, req.verb, req.path, req.remoteAddr);
      var r := RunSpec(inner, env, req, st.(log := st.log + [started]));
      var l := LoggerSpec(inner, env, req, st);
      && l.out == r.out
      && l.st.reply == r.st.reply
      && st.log + [started] <= r.st.log
      && (!r.out.Panicked? ==>
            l.st.log == r.st.log + [CompletedLine(meta.traceId, req.verb, req.path, req.remoteAddr, r.st.reply.status, env.fx.clock - meta.now)])
      && (r.out.Panicked? ==> l.st.log == r.st.log)
  {
    var meta := env.meta.value;
    RunAppends(inner, env, req, st.(log := st.log + [StartedLine(meta.traceId, req.verb, req.path, req.remoteAddr)]));
  }

  /** Errors leaves a nil result, and a panic, exactly as the inner call left them. */
  lemma ErrorsPassesNil(inner: Handler, env: Env, req: Request, st: World)
    requires env.meta.Some? && !RunSpec(inner, env, req, st).out.Err?
    ensures ErrorsSpec(inner, env, req, st) == RunSpec(inner, env, req, st)
  {
  }

  /**
   * An error from the inner call gets one log line with the trace id and one
   * `RespondError`; a failure of that is returned instead, otherwise only a
   * shutdown error is returned (unchanged) and every other error is swallowed.
   */
  lemma ErrorsRenders(inner: Handler, env: Env, req: Request, st: World)
    requires env.meta.Some? && RunSpec(inner, env, req, st).out.Err?
    ensures var r := RunSpec(inner, env, req, st);
      var e := r.out.e;
      var rendered := RespondErrorSpec(env, e, r.st.reply);
      var x := ErrorsSpec(inner, env, req, st);
      && x.st.log == r.st.log + [ErrorLine(env.meta.value.traceId, e)]
      && x.st.reply == rendered.reply
      && (rendered.err.Some? ==> x.out == Err(rendered.err.value))
      && (rendered.err.None? && IsShutdown(e) ==> x.out == Err(e))
      && (rendered.err.None? && !IsShutdown(e) ==> x.out == Ok)
  {
  }

  /** A panic in the inner call becomes the opaque error "panic: p" and one log line with the stack. */
  lemma PanicsRecovers(inner: Handler, env: Env, req: Request, st: World)
    requires env.meta.Some? && RunSpec(inner, env, req, st).out.Panicked?
    ensures var r := RunSpec(inner, env, req, st);
      var x := PanicsSpec(inner, env, req, st);
      && x.out == Err(PanicError(r.out.p))
      && !IsShutdown(x.out.e) && !IsTrusted(x.out.e)
      && x.st == r.st.(log := r.st.log + [PanicLine(env.meta.value.traceId, env.fx.stack)])
  {
  }

  /** A normal return, nil or error, passes Panics unchanged with no log line; nothing it returns is a panic. */
  lemma PanicsPassesReturn(inner: Handler, env: Env, req: Request, st: World)
    ensures !PanicsSpec(inner, env, req, st).out.Panicked?
    ensures env.meta.Some? && !RunSpec(inner, env, req, st).out.Panicked? ==>
      PanicsSpec(inner, env, req, st) == RunSpec(inner, env, req, st)
  {
  }

  /**
   * A panic comes out of a composed handler exactly when its target panics,
   * no Panics layer encloses it, and `Values` is present (or there is no
   * layer to ask for it); the panic value is then the target's.
   */
  lemma {:induction false} PanicEscapesIff(h: Handler, env: Env, req: Request, st: World)
    ensures var r := RunSpec(h, env, req, st);
      r.out.Panicked? <==> (Target(h).Panic? && PanicsMw !in Layers(h) && (env.meta.Some? || h.Base?))
    ensures RunSpec(h, env, req, st).out.Panicked? ==> RunSpec(h, env, req, st).out.p == Target(h).p
    decreases h
  {
    match h
    case Base(b) =>
    case Layer(m, inner) =>
      if env.meta.Some? {
        var meta := env.meta.value;
        if m == LoggerMw {
          PanicEscapesIff(inner, env, req, st.(log := st.log + [StartedLine(meta.traceId, req.verb, req.path, req.remoteAddr)]));
        } else {
          PanicEscapesIff(inner, env, req, st);
        }
      }
  }

  /** `k` copies of one log event. */
  function Repeat(x: LogEvent, k: nat): (r: seq<LogEvent>)
    ensures |r| == k && forall i :: 0 <= i < |r| ==> r[i] == x
  {
    if k == 0 then [] else [x] + Repeat(x, k - 1)
  }

  /**
   * The nesting of middleware as the log shows it: `k` Logger layers around
   * a target that returns nil write their `k` start lines, outermost first,
   * then their `k` completion lines, innermost first.
   */
  lemma {:induction false} LoggersNest(k: nat, env: Env, req: Request, st: World)
    requires env.meta.Some?
    ensures var meta := env.meta.value;
      var started := StartedLine(meta.traceId, req.verb, req.path, req.remoteAddr);
      var done := CompletedLine(meta.traceId, req.verb, req.path, req.remoteAddr, st.reply.status, env.fx.clock - meta.now);
      RunSpec(Wrap(seq(k, _ => LoggerMw), Base(ReturnOk)), env, req, st)
        == Ran(Ok, st.(log := st.log + Repeat(started, k) + Repeat(done, k)))
  {
    var meta := env.meta.value;
    var started := StartedLine(meta.traceId, req.verb, req.path, req.remoteAddr);
    var done := CompletedLine(meta.traceId, req.verb, req.path, req.remoteAddr, st.reply.status, env.fx.clock - meta.now);
    if k > 0 {
      var mws: seq<Mw> := seq(k, _ => LoggerMw);
      assert mws[0] == LoggerMw;
      assert mws[1..] == seq(k - 1, _ => LoggerMw);
      var st1 := st.(log := st.log + [started]);
      LoggersNest(k - 1, env, req, st1);
      assert st1.log + Repeat(started, k - 1) == st.log + Repeat(started, k);
      assert Repeat(done, k - 1) + [done] == Repeat(done, k);
    }
  }
}
