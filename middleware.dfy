/**
 * Handlers and middleware (core/web/middleware.go, core/web/web.go).
 * Go passes handlers and middleware as closures; here both are symbolic.
 * A middleware list holds the three middlewares of services/middleware
 * and nil entries, and a handler is a target behaviour wrapped in layers.
 */
module Middleware {
  import opened WebError
  import opened State

  /** An entry of a middleware list; `NilMw` is a nil `web.Middleware`. */
  datatype Mw = NilMw | LoggerMw | ErrorsMw | PanicsMw

  /** A middleware that can actually be applied. */
  type Live = m: Mw | m != NilMw witness LoggerMw

  /** What a target handler does when it is called. */
  datatype Behaviour =
    | ReturnOk                                  // return nil
    | ReturnErr(e: Error)                       // return e
    | RespondWith(data: Payload, status: int)   // return web.Respond(ctx, w, data, status)
    | Panic(p: string)                          // panic(p)

  /** A `web.Handler`: a target behaviour, or a middleware applied to an inner handler. */
  datatype Handler = Base(b: Behaviour) | Layer(m: Live, inner: Handler)

  /** `m0(m1(...mn(h)))` with the nil entries left out: the meaning of `wrapMiddleware`. */
  function Wrap(mws: seq<Mw>, h: Handler): Handler {
    if mws == [] then h
    else if mws[0] == NilMw then Wrap(mws[1..], h)
    else Layer(mws[0], Wrap(mws[1..], h))
  }

  /** The list without its nil entries. */
  function NonNil(mws: seq<Mw>): (r: seq<Mw>)
    ensures forall i :: 0 <= i < |r| ==> r[i] != NilMw
    ensures |r| <= |mws|
  {
    if mws == [] then []
    else if mws[0] == NilMw then NonNil(mws[1..])
    else [mws[0]] + NonNil(mws[1..])
  }

  /** The layers of a handler, outermost first. */
  function Layers(h: Handler): seq<Mw> {
    match h
    case Base(_) => []
    case Layer(m, inner) => [m] + Layers(inner)
  }

  /** The behaviour at the centre of a handler. */
  function Target(h: Handler): Behaviour {
    match h
    case Base(b) => b
    case Layer(_, inner) => Target(inner)
  }

  /**
   * `wrapMiddleware`: loops backward over the list and replaces the handler
   * with the wrapped one for every non-nil entry.
   */
  method WrapMiddleware(mws: seq<Mw>, handler: Handler) returns (r: Handler)
    ensures r == Wrap(mws, handler)
    ensures Layers(r) == NonNil(mws) + Layers(handler) && Target(r) == Target(handler)
  {
    r := handler;
    var i := |mws|;
    while i > 0
      invariant 0 <= i <= |mws|
      invariant r == Wrap(mws[i..], handler)
    {
      i := i - 1;
      assert mws[i..][1..] == mws[i + 1..];
      if mws[i] != NilMw {
        r := Layer(mws[i], r);
      }
    }
    assert mws[0..] == mws;
    WrapLayers(mws, handler);
  }

  /** Each non-nil entry becomes exactly one layer, in list order, around the unchanged handler. */
  lemma {:induction false} WrapLayers(mws: seq<Mw>, h: Handler)
    ensures Layers(Wrap(mws, h)) == NonNil(mws) + Layers(h)
    ensures Target(Wrap(mws, h)) == Target(h)
    decreases |mws|
  {
    if mws != [] {
      WrapLayers(mws[1..], h);
    }
  }

  /** A list with no non-nil entry, the empty list among them, leaves the handler unchanged. */
  lemma {:induction false} WrapIdentity(mws: seq<Mw>, h: Handler)
    requires NonNil(mws) == []
    ensures Wrap(mws, h) == h
    decreases |mws|
  {
    if mws != [] {
      assert mws[0] == NilMw;
      WrapIdentity(mws[1..], h);
    }
  }

  /** Nil entries are skipped: wrapping a list is wrapping it with its nils removed. */
  lemma {:induction false} WrapSkipsNil(mws: seq<Mw>, h: Handler)
    ensures Wrap(mws, h) == Wrap(NonNil(mws), h)
    decreases |mws|
  {
    if mws != [] {
      WrapSkipsNil(mws[1..], h);
      if mws[0] != NilMw {
        var n := NonNil(mws);
        assert n[0] == mws[0] && n[1..] == NonNil(mws[1..]);
      }
    }
  }

  /** Composition splits over concatenation: the first list ends up outside the second. */
  lemma {:induction false} WrapAppend(a: seq<Mw>, b: seq<Mw>, h: Handler)
    ensures Wrap(a + b, h) == Wrap(a, Wrap(b, h))
    decreases |a|
  {
    if a == [] {
      assert a + b == b;
    } else {
      assert (a + b)[0] == a[0] && (a + b)[1..] == a[1..] + b;
      WrapAppend(a[1..], b, h);
    }
  }

  /** Dropping nils commutes with concatenation. */
  lemma {:induction false} NonNilAppend(a: seq<Mw>, b: seq<Mw>)
    ensures NonNil(a + b) == NonNil(a) + NonNil(b)
    decreases |a|
  {
    if a == [] {
      assert a + b == b;
    } else {
      assert (a + b)[0] == a[0] && (a + b)[1..] == a[1..] + b;
      NonNilAppend(a[1..], b);
    }
  }

  /** The entry and exit points of a call through a handler. */
  datatype Event = Enter(m: Mw) | Call(b: Behaviour) | Exit(m: Mw)

  /** The order in which the layers of a handler are entered and left around the target call. */
  function Nesting(h: Handler): seq<Event> {
    match h
    case Base(b) => [Call(b)]
    case Layer(m, inner) => [Enter(m)] + Nesting(inner) + [Exit(m)]
  }

  function Enters(ms: seq<Mw>): seq<Event> {
    if ms == [] then [] else [Enter(ms[0])] + Enters(ms[1..])
  }

  function Exits(ms: seq<Mw>): seq<Event> {
    if ms == [] then [] else [Exit(ms[0])] + Exits(ms[1..])
  }

  function Reverse(ms: seq<Mw>): seq<Mw> {
    if ms == [] then [] else Reverse(ms[1..]) + [ms[0]]
  }

  lemma {:induction false} ExitsAppend(a: seq<Mw>, m: Mw)
    ensures Exits(a + [m]) == Exits(a) + [Exit(m)]
    decreases |a|
  {
    if a == [] {
      assert a + [m] == [m];
    } else {
      assert (a + [m])[0] == a[0] && (a + [m])[1..] == a[1..] + [m];
      ExitsAppend(a[1..], m);
    }
  }

  /**
   * Strict LIFO nesting: the non-nil middlewares are entered in list order,
   * then the target runs, then they are left in reverse list order.
   */
  lemma {:induction false} WrapNesting(mws: seq<Mw>, b: Behaviour)
    ensures Nesting(Wrap(mws, Base(b))) == Enters(NonNil(mws)) + [Call(b)] + Exits(Reverse(NonNil(mws)))
    decreases |mws|
  {
    if mws != [] {
      WrapNesting(mws[1..], b);
      if mws[0] != NilMw {
        var rest := NonNil(mws[1..]);
        var n := NonNil(mws);
        assert n == [mws[0]] + rest;
        assert n[0] == mws[0] && n[1..] == rest;
        ExitsAppend(Reverse(rest), mws[0]);
      }
    }
  }
}
