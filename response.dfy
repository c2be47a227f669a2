/** The response encoder (core/web/response.go): `Respond` and `RespondError`. */
module Response {
  import opened Wrappers
  import opened WebError
  import opened State

  const StatusNoContent := 204
  const StatusInternalServerError := 500
  /** `http.StatusText(http.StatusInternalServerError)`. */
  const InternalServerErrorText := "Internal Server Error"
  const ContentType := "Content-Type"
  const ApplicationJson := "application/json"

  /** The body `RespondError` sends for the 500 response: `ErrorResponse{Error: "Internal Server Error"}`. */
  const InternalErrorBody := ErrorResponse(InternalServerErrorText, map[])

  /** The error a call returned (`None` is nil) and the reply state it left. */
  datatype Step = Step(err: Option<Error>, reply: Reply)

  /** What `Respond(ctx, w, data, code)` does to the reply state. */
  function RespondSpec(env: Env, data: Payload, code: int, rp: Reply): Step {
    if env.meta.None? then Step(Some(MissingValues), rp)
    else
      var recorded := rp.(status := code);
      if code == StatusNoContent then
        Step(None, recorded.(sink := rp.sink.(statusWrites := rp.sink.statusWrites + [StatusNoContent])))
      else
        match env.fx.marshal(data)
        case EncodeFailed(e) => Step(Some(e), recorded)
        case Encoded(bytes) =>
          var headed := rp.sink.(header := rp.sink.header[ContentType := ApplicationJson],
                                 statusWrites := rp.sink.statusWrites + [code]);
          if env.writeErr.Some? then Step(env.writeErr, recorded.(sink := headed))
          else Step(None, recorded.(sink := headed.(body := headed.body + bytes)))
  }

  /** What `RespondError(ctx, w, err)` does, as written: a trusted cause is answered, then the 500 answer follows. */
  function RespondErrorSpec(env: Env, e: Error, rp: Reply): Step {
    var c := Cause(e);
    if c.Trusted? then
      var first := RespondSpec(env, ErrorResponse(c.msg, c.fields), c.status, rp);
      if first.err.Some? then first
      else RespondSpec(env, InternalErrorBody, StatusInternalServerError, first.reply)
    else RespondSpec(env, InternalErrorBody, StatusInternalServerError, rp)
  }

  method Respond(v: Values?, w: ResponseWriter, data: Payload, code: int, fx: Foreign) returns (err: Option<Error>)
    modifies v, w
    ensures Step(err, ReplyOf(v, w)) == RespondSpec(EnvOf(v, w, fx), data, code, old(ReplyOf(v, w)))
  {
    if v == null {
      return Some(MissingValues);
    }
    v.statusCode := code;
    if code == StatusNoContent {
      w.WriteHeader(StatusNoContent);
      return None;
    }
    var json := fx.marshal(data);
    if json.EncodeFailed? {
      return Some(json.err);
    }
    w.SetHeader(ContentType, ApplicationJson);
    w.WriteHeader(code);
    err := w.Write(json.bytes);
  }

  method RespondError(v: Values?, w: ResponseWriter, e: Error, fx: Foreign) returns (err: Option<Error>)
    modifies v, w
    ensures Step(err, ReplyOf(v, w)) == RespondErrorSpec(EnvOf(v, w, fx), e, old(ReplyOf(v, w)))
  {
    var c := Cause(e);
    if c.Trusted? {
      err := Respond(v, w, ErrorResponse(c.msg, c.fields), c.status, fx);
      if err.Some? {
        return;
      }
    }
    err := Respond(v, w, InternalErrorBody, StatusInternalServerError, fx);
  }

  /** Without `Values` nothing is touched and a shutdown error comes back. */
  lemma RespondWithoutValues(env: Env, data: Payload, code: int, e: Error, rp: Reply)
    requires env.meta.None?
    ensures RespondSpec(env, data, code, rp) == Step(Some(MissingValues), rp)
    ensures RespondErrorSpec(env, e, rp) == Step(Some(MissingValues), rp)
  {
  }

  /**
   * `Respond` with `Values` present: the status is recorded first, whatever
   * follows; a 204 writes only its status line; a marshal failure writes
   * nothing; otherwise header, status line and exactly the marshalled bytes.
   */
  lemma RespondCases(env: Env, data: Payload, code: int, rp: Reply)
    requires env.meta.Some?
    ensures var r := RespondSpec(env, data, code, rp);
      && r.reply.status == code
      && |r.reply.sink.statusWrites| <= |rp.sink.statusWrites| + 1
      && (code == StatusNoContent ==>
            r.err.None? && r.reply.sink == rp.sink.(statusWrites := rp.sink.statusWrites + [StatusNoContent]))
      && (code != StatusNoContent && env.fx.marshal(data).EncodeFailed? ==>
            r.err == Some(env.fx.marshal(data).err) && r.reply.sink == rp.sink)
      && (code != StatusNoContent && env.fx.marshal(data).Encoded? ==>
            && r.reply.sink.header == rp.sink.header[ContentType := ApplicationJson]
            && r.reply.sink.statusWrites == rp.sink.statusWrites + [code]
            && r.err == env.writeErr
            && r.reply.sink.body == rp.sink.body + (if env.writeErr.None? then env.fx.marshal(data).bytes else []))
  {
  }

  /** `Respond` returns nil exactly when `Values` is present and it needs no body, or the body was marshalled and written. */
  lemma RespondNilIff(env: Env, data: Payload, code: int, rp: Reply)
    ensures RespondSpec(env, data, code, rp).err.None? <==>
      env.meta.Some? && (code == StatusNoContent || (env.fx.marshal(data).Encoded? && env.writeErr.None?))
  {
  }

  /** The response sink only grows: status lines and body bytes are appended, never taken back. */
  lemma RespondAppends(env: Env, data: Payload, code: int, rp: Reply)
    ensures var r := RespondSpec(env, data, code, rp);
      rp.sink.statusWrites <= r.reply.sink.statusWrites && rp.sink.body <= r.reply.sink.body
  {
  }

  /** A cause that is not trusted gets one 500 answer with the fixed body, whatever the error said. */
  lemma RespondErrorOpaque(env: Env, e: Error, rp: Reply)
    requires !IsTrusted(e)
    ensures RespondErrorSpec(env, e, rp) == RespondSpec(env, InternalErrorBody, StatusInternalServerError, rp)
    ensures forall e' :: !IsTrusted(e') ==> RespondErrorSpec(env, e', rp) == RespondErrorSpec(env, e, rp)
  {
  }

  /**
   * The trusted path as written: after a successful answer with the error's
   * own status, message and fields, `RespondError` goes on to the 500 answer,
   * so two status lines are written and `StatusCode` ends at 500.
   */
  lemma RespondErrorTrustedFallsThrough(env: Env, e: Error, rp: Reply)
    requires env.meta.Some? && IsTrusted(e)
    requires env.writeErr.None?
    requires Cause(e).status == StatusNoContent || env.fx.marshal(ErrorResponse(Cause(e).msg, Cause(e).fields)).Encoded?
    requires env.fx.marshal(InternalErrorBody).Encoded?
    ensures var r := RespondErrorSpec(env, e, rp);
      && r.err.None?
      && r.reply.status == StatusInternalServerError
      && r.reply.sink.statusWrites == rp.sink.statusWrites + [Cause(e).status, StatusInternalServerError]
      && r.reply.sink.body == rp.sink.body
           + (if Cause(e).status == StatusNoContent then []
              else env.fx.marshal(ErrorResponse(Cause(e).msg, Cause(e).fields)).bytes)
           + env.fx.marshal(InternalErrorBody).bytes
  {
    var c := Cause(e);
    var first := RespondSpec(env, ErrorResponse(c.msg, c.fields), c.status, rp);
    RespondCases(env, ErrorResponse(c.msg, c.fields), c.status, rp);
    RespondCases(env, InternalErrorBody, StatusInternalServerError, first.reply);
  }

  /**
   * A failure of the trusted answer is returned at once: the result is that
   * answer's own error and reply state, with no 500 answer after it.
   */
  lemma RespondErrorTrustedFails(env: Env, e: Error, rp: Reply)
    requires env.meta.Some? && IsTrusted(e)
    requires RespondSpec(env, ErrorResponse(Cause(e).msg, Cause(e).fields), Cause(e).status, rp).err.Some?
    ensures RespondErrorSpec(env, e, rp) == RespondSpec(env, ErrorResponse(Cause(e).msg, Cause(e).fields), Cause(e).status, rp)
    ensures var r := RespondErrorSpec(env, e, rp);
      r.err.Some? && r.reply.status == Cause(e).status && |r.reply.sink.statusWrites| <= |rp.sink.statusWrites| + 1
  {
    RespondCases(env, ErrorResponse(Cause(e).msg, Cause(e).fields), Cause(e).status, rp);
  }

  /** `RespondError` returns nil exactly when every `Respond` it issues succeeds; then `StatusCode` is 500. */
  lemma RespondErrorNilIff(env: Env, e: Error, rp: Reply)
    ensures var r := RespondErrorSpec(env, e, rp);
      && (r.err.None? <==>
            env.meta.Some? && env.fx.marshal(InternalErrorBody).Encoded? && env.writeErr.None?
            && (IsTrusted(e) ==> Cause(e).status == StatusNoContent
                                 || env.fx.marshal(ErrorResponse(Cause(e).msg, Cause(e).fields)).Encoded?))
      && (r.err.None? ==> r.reply.status == StatusInternalServerError)
  {
    var c := Cause(e);
    if c.Trusted? {
      RespondNilIff(env, ErrorResponse(c.msg, c.fields), c.status, rp);
      var first := RespondSpec(env, ErrorResponse(c.msg, c.fields), c.status, rp);
      RespondNilIff(env, InternalErrorBody, StatusInternalServerError, first.reply);
    } else {
      RespondNilIff(env, InternalErrorBody, StatusInternalServerError, rp);
    }
  }

  /** The error `Respond` returns does not depend on the reply so far. */
  lemma RespondResultIgnoresState(env: Env, data: Payload, code: int, rp1: Reply, rp2: Reply)
    ensures RespondSpec(env, data, code, rp1).err == RespondSpec(env, data, code, rp2).err
  {
  }

  /** The error `RespondError` returns depends only on the request's environment and the error, not on the reply so far. */
  lemma RespondErrorResultIgnoresState(env: Env, e: Error, rp1: Reply, rp2: Reply)
    ensures RespondErrorSpec(env, e, rp1).err == RespondErrorSpec(env, e, rp2).err
  {
    var c := Cause(e);
    if c.Trusted? {
      var first1 := RespondSpec(env, ErrorResponse(c.msg, c.fields), c.status, rp1);
      var first2 := RespondSpec(env, ErrorResponse(c.msg, c.fields), c.status, rp2);
      RespondResultIgnoresState(env, ErrorResponse(c.msg, c.fields), c.status, rp1, rp2);
      RespondResultIgnoresState(env, InternalErrorBody, StatusInternalServerError, first1.reply, first2.reply);
    } else {
      RespondResultIgnoresState(env, InternalErrorBody, StatusInternalServerError, rp1, rp2);
    }
  }

  /** `RespondError` also only appends to the sink. */
  lemma RespondErrorAppends(env: Env, e: Error, rp: Reply)
    ensures var r := RespondErrorSpec(env, e, rp);
      rp.sink.statusWrites <= r.reply.sink.statusWrites && rp.sink.body <= r.reply.sink.body
  {
    var c := Cause(e);
    if c.Trusted? {
      var first := RespondSpec(env, ErrorResponse(c.msg, c.fields), c.status, rp);
      RespondAppends(env, ErrorResponse(c.msg, c.fields), c.status, rp);
      RespondAppends(env, InternalErrorBody, StatusInternalServerError, first.reply);
    } else {
      RespondAppends(env, InternalErrorBody, StatusInternalServerError, rp);
    }
  }
}
