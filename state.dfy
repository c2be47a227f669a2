/**
 * The mutable things a request touches: its `Values` record
 * (core/web/web.go), the response writer and the log, together with a
 * value-level picture of them (`World`) that the specification functions
 * work on.
 */
module State {
  import opened Wrappers
  import opened WebError

  newtype byte = x: int | 0 <= x < 256

  /** The parts of `*http.Request` that the core reads. */
  datatype Request = Request(verb: string, path: string, remoteAddr: string)

  /** A value handed to `Respond`: the `ErrorResponse` record, or a handler's own data. */
  datatype Payload =
    | ErrorResponse(error: string, fields: map<string, string>)
    | Data(value: string)

  /** What `json.Marshal` gives back. */
  datatype Encoded = Encoded(bytes: seq<byte>) | EncodeFailed(err: Error)

  /** The foreign calls the core makes: `json.Marshal`, `debug.Stack` and the clock read by `time.Since`. */
  datatype Foreign = Foreign(marshal: Payload -> Encoded, stack: string, clock: int)

  /** The immutable part of a request's `Values`. */
  datatype Meta = Meta(traceId: string, now: int)

  /**
   * What a handler sees besides the mutable state: the `Values` of its
   * context (`None` when the context does not carry them), the foreign
   * calls, and the error every write to the response writer fails with.
   */
  datatype Env = Env(meta: Option<Meta>, fx: Foreign, writeErr: Option<Error>)

  /** One structured log line. */
  datatype LogEvent =
    | StartedLine(traceId: string, verb: string, path: string, remoteAddr: string)
    | CompletedLine(traceId: string, verb: string, path: string, remoteAddr: string, status: int, elapsed: int)
    | ErrorLine(traceId: string, err: Error)
    | PanicLine(traceId: string, stack: string)

  /** The calls made on a response writer: header map, every `WriteHeader` status in order, body bytes. */
  datatype Sink = Sink(header: map<string, string>, statusWrites: seq<int>, body: seq<byte>)

  /** The per-request reply state: `Values.StatusCode` and the response writer. */
  datatype Reply = Reply(status: int, sink: Sink)

  datatype World = World(reply: Reply, log: seq<LogEvent>)

  /** `Values` (core/web/web.go): created once per request, only `statusCode` ever changes. */
  class Values {
    const traceId: string
    const now: int
    var statusCode: int

    constructor (traceId: string, now: int)
      ensures this.traceId == traceId && this.now == now && statusCode == 0
    {
      this.traceId := traceId;
      this.now := now;
      statusCode := 0;
    }
  }

  /** The `http.ResponseWriter`, recording every call; every `Write` fails with `writeErr` when that is set. */
  class ResponseWriter {
    var header: map<string, string>
    var statusWrites: seq<int>
    var body: seq<byte>
    const writeErr: Option<Error>

    constructor (writeErr: Option<Error>)
      ensures this.writeErr == writeErr
      ensures header == map[] && statusWrites == [] && body == []
    {
      this.writeErr := writeErr;
      header, statusWrites, body := map[], [], [];
    }

    function Contents(): Sink
      reads this
    {
      Sink(header, statusWrites, body)
    }

    /** `w.Header().Set(key, value)`. */
    method SetHeader(key: string, value: string)
      modifies this
      ensures Contents() == old(Contents()).(header := old(header)[key := value])
    {
      header := header[key := value];
    }

    method WriteHeader(code: int)
      modifies this
      ensures Contents() == old(Contents()).(statusWrites := old(statusWrites) + [code])
    {
      statusWrites := statusWrites + [code];
    }

    /** `w.Write(data)`: appends the bytes, or fails with `writeErr` and leaves the body as it was. */
    method Write(data: seq<byte>) returns (err: Option<Error>)
      modifies this
      ensures err == writeErr
      ensures Contents() == if writeErr.None? then old(Contents()).(body := old(body) + data) else old(Contents())
    {
      err := writeErr;
      if writeErr.None? {
        body := body + data;
      }
    }
  }

  /** The `*log.Logger` every middleware writes to. */
  class Log {
    var lines: seq<LogEvent>

    constructor ()
      ensures lines == []
    {
      lines := [];
    }

    method Append(e: LogEvent)
      modifies this
      ensures lines == old(lines) + [e]
    {
      lines := lines + [e];
    }
  }

  /** `ctx.Value(KeyValues).(*Values)`, seen as a value: `None` when the lookup fails. */
  function MetaOf(v: Values?): Option<Meta> {
    if v == null then None else Some(Meta(v.traceId, v.now))
  }

  function EnvOf(v: Values?, w: ResponseWriter, fx: Foreign): Env {
    Env(MetaOf(v), fx, w.writeErr)
  }

  /** The reply state; without `Values` its status reads as 0 and is never written. */
  ghost function ReplyOf(v: Values?, w: ResponseWriter): Reply
    reads v, w
  {
    Reply(if v == null then 0 else v.statusCode, w.Contents())
  }

  ghost function Snapshot(v: Values?, w: ResponseWriter, log: Log): World
    reads v, w, log
  {
    World(ReplyOf(v, w), log.lines)
  }
}
