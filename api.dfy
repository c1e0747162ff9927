/**
 * Middleware composition (api/api.go).  A middleware wraps a handler into
 * a new handler; handlers are kept abstract (the type parameter `H`) except
 * where a concrete instance shows what a composition does.
 */
module Api {
  /** `m0(m1(... m(n-1)(next)))`: the first middleware of the list is the outermost. */
  function Chain<H>(middleware: seq<H -> H>, next: H): H
    decreases |middleware|
  {
    if middleware == [] then next else middleware[0](Chain(middleware[1..], next))
  }

  /**
   * `HandleMiddleWareChain(middleware...)(next)`: wraps `next` by the last
   * middleware first, walking the list from the end to the front.
   */
  method HandleMiddlewareChain<H>(middleware: seq<H -> H>, next: H) returns (h: H)
    ensures h == Chain(middleware, next)
  {
    h := next;
    var i := |middleware| - 1;
    while i >= 0
      invariant -1 <= i < |middleware|
      invariant h == Chain(middleware[i + 1..], next)
    {
      assert middleware[i..][1..] == middleware[i + 1..];
      h := middleware[i](h);
      i := i - 1;
    }
    assert middleware[0..] == middleware;
  }

  /** Chaining two lists is chaining the first around the chain of the second. */
  lemma {:induction false} ChainAppend<H>(a: seq<H -> H>, b: seq<H -> H>, next: H)
    ensures Chain(a + b, next) == Chain(a, Chain(b, next))
    decreases |a|
  {
    if a == [] {
      assert a + b == b;
    } else {
      assert (a + b)[0] == a[0];
      assert (a + b)[1..] == a[1..] + b;
      ChainAppend(a[1..], b, next);
    }
  }

  /** A handler built symbolically: the base handler wrapped by numbered layers. */
  datatype Layered = Base | Wrapped(layer: nat, inner: Layered)

  /** The layers of a handler, outermost first. */
  function Layers(h: Layered): seq<nat>
  {
    match h
    case Base => []
    case Wrapped(k, inner) => [k] + Layers(inner)
  }

  /** The middleware that adds layer `k`. */
  function Layer(k: nat): Layered -> Layered
  {
    h => Wrapped(k, h)
  }

  /** Middleware `lo`, `lo + 1`, ..., `hi - 1`, in that order. */
  function Layering(lo: nat, hi: nat): (ms: seq<Layered -> Layered>)
    ensures |ms| == if lo <= hi then hi - lo else 0
    decreases hi - lo
  {
    if lo >= hi then [] else [Layer(lo)] + Layering(lo + 1, hi)
  }

  /** The numbers `lo`, ..., `hi - 1`. */
  function Range(lo: nat, hi: nat): seq<nat>
    decreases hi - lo
  {
    if lo >= hi then [] else [lo] + Range(lo + 1, hi)
  }

  /**
   * Chaining the middleware `lo` .. `hi - 1` applies each of them exactly
   * once, in list order from the outside in, around the base handler.
   */
  lemma {:induction false} ChainAppliesEachOnce(lo: nat, hi: nat)
    ensures Layers(Chain(Layering(lo, hi), Base)) == Range(lo, hi)
    decreases hi - lo
  {
    if lo < hi {
      var ms := Layering(lo, hi);
      assert ms[0] == Layer(lo);
      assert ms[1..] == Layering(lo + 1, hi);
      ChainAppliesEachOnce(lo + 1, hi);
    }
  }

  // ---------------------------------------------------------------------
  // RequestLoggerMiddleware, over handlers that report what they did.

  datatype Request = Request(verb: seq<char>, path: seq<char>)

  /** What a handler does with a response writer and a request, in order. */
  datatype Effect = Logged(verb: seq<char>, path: seq<char>) | Served(writer: nat, request: Request)

  type Handler = (nat, Request) -> seq<Effect>

  /** `RequestLoggerMiddleware(next)`: log the method and path, then serve with `next`. */
  function RequestLogger(next: Handler): Handler
  {
    (w: nat, r: Request) => [Logged(r.verb, r.path)] + next(w, r)
  }

  /** The handler that only records that it was called, and with what. */
  function Recorder(): Handler
  {
    (w: nat, r: Request) => [Served(w, r)]
  }

  function CountServed(effects: seq<Effect>): nat
  {
    if effects == [] then 0 else (if effects[0].Served? then 1 else 0) + CountServed(effects[1..])
  }

  /**
   * The logger calls the next handler exactly once, with the same writer
   * and request, after logging the request's method and path.
   */
  lemma RequestLoggerForwardsOnce(w: nat, r: Request)
    ensures RequestLogger(Recorder())(w, r) == [Logged(r.verb, r.path), Served(w, r)]
    ensures CountServed(RequestLogger(Recorder())(w, r)) == 1
  {
    var effects := RequestLogger(Recorder())(w, r);
    assert effects[1..] == [Served(w, r)];
    assert effects[1..][1..] == [];
    assert CountServed(effects[1..]) == 1;
  }

  /** The server's chain of the single logger is the logger around the router. */
  lemma ServerChain(router: Handler)
    ensures Chain([RequestLogger], router) == RequestLogger(router)
  {
    assert [RequestLogger][1..] == [];
  }
}
