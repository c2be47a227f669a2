/**
 * The error values that travel through the handler chain.  The Go package
 * that declares `web.Error`, `NewShutdownError`, `IsShutdown` and
 * `ErrorResponse` is not part of this model; its behaviour is fixed here
 * from the way core/web and services/middleware use it.
 */
module WebError {

  datatype Error =
    /** A `*web.Error`: client-safe, carries the response status and field details. */
    | Trusted(msg: string, status: int, fields: map<string, string>)
    /** The shutdown error made by `NewShutdownError`. */
    | Shutdown(msg: string)
    /** Any other error value (for instance one made by `errors.Errorf`). */
    | Opaque(msg: string)
    /** An error wrapped with extra context (`errors.Wrap`); `Cause` strips it. */
    | Wrapped(context: string, inner: Error)

  /** `errors.Cause`: the innermost error under any number of wrappers. */
  function Cause(e: Error): (c: Error)
    ensures !c.Wrapped?
    ensures !e.Wrapped? ==> c == e
  {
    match e
    case Wrapped(_, inner) => Cause(inner)
    case _ => e
  }

  /** `IsShutdown`: the cause of `e` is a shutdown error. */
  predicate IsShutdown(e: Error) {
    Cause(e).Shutdown?
  }

  /** `errors.Cause(err).(*Error)` succeeds. */
  predicate IsTrusted(e: Error) {
    Cause(e).Trusted?
  }

  /** The error every layer returns when the request's `Values` cannot be found. */
  const MissingValues: Error := Shutdown("web value missing from context.")

  /** The error that the Panics middleware makes of a recovered panic value (`errors.Errorf("panic: %v", rec)`). */
  function PanicError(p: string): (e: Error)
    ensures !IsShutdown(e) && !IsTrusted(e)
    ensures e.Opaque? && e.msg == "panic: " + p
  {
    Opaque("panic: " + p)
  }
}
