/**
 * The middleware pipeline: an ordered list of middleware class names, and
 * `process`, which folds them around a final handler so that the first
 * middleware piped is the outermost layer. What a middleware's `handle`
 * does is a parameter: `handle(m, request, next)` is the response of a
 * fresh instance of class `m`.
 */
module MiddlewarePipeline {
  import opened Php

  /** What `class_exists` and `is_subclass_of(…, MiddlewareInterface)` report for a class name. */
  datatype ClassInfo = ClassInfo(isMiddleware: bool)

  function NotFoundMessage(name: string): string {
    "Middleware '" + name + "' not found"
  }

  function NotMiddlewareMessage(name: string): string {
    "Middleware '" + name + "' must implement MiddlewareInterface"
  }

  /** The closure `fn($request) => (new $m)->handle($request, $next)`. */
  function Wrap<Req, Resp>(handle: (string, Req, Req -> Resp) -> Resp, m: string, next: Req -> Resp): Req -> Resp {
    req => handle(m, req, next)
  }

  /** `array_reduce($ms, fn($next, $m) => Wrap(m, next), $carry)`: a left fold. */
  function Reduce<Req, Resp>(handle: (string, Req, Req -> Resp) -> Resp, ms: seq<string>, carry: Req -> Resp): Req -> Resp
    decreases |ms|
  {
    if ms == [] then carry else Reduce(handle, ms[1..], Wrap(handle, ms[0], carry))
  }

  function Reverse<T>(s: seq<T>): (r: seq<T>)
    ensures |r| == |s| && forall i :: 0 <= i < |s| ==> r[i] == s[|s| - 1 - i]
  {
    if s == [] then [] else Reverse(s[1..]) + [s[0]]
  }

  /**
   * The pipeline as layers: the first middleware receives the request and a
   * `next` that runs the rest of the pipeline, ending in the handler.
   */
  function Onion<Req, Resp>(handle: (string, Req, Req -> Resp) -> Resp, ms: seq<string>, handler: Req -> Resp): Req -> Resp
    decreases |ms|
  {
    if ms == [] then handler else Wrap(handle, ms[0], Onion(handle, ms[1..], handler))
  }

  /** Folding over one more middleware wraps the folded pipeline in that middleware. */
  lemma {:induction false} ReduceSnoc<Req, Resp>(handle: (string, Req, Req -> Resp) -> Resp, ms: seq<string>, m: string, carry: Req -> Resp)
    ensures Reduce(handle, ms + [m], carry) == Wrap(handle, m, Reduce(handle, ms, carry))
    decreases |ms|
  {
    if ms != [] {
      assert (ms + [m])[1..] == ms[1..] + [m];
      ReduceSnoc(handle, ms[1..], m, Wrap(handle, ms[0], carry));
    } else {
      assert [m][1..] == [];
    }
  }

  /** Reducing the reversed list builds the onion: the first middleware piped is outermost. */
  lemma {:induction false} ReduceReverseIsOnion<Req, Resp>(handle: (string, Req, Req -> Resp) -> Resp, ms: seq<string>, handler: Req -> Resp)
    ensures Reduce(handle, Reverse(ms), handler) == Onion(handle, ms, handler)
    decreases |ms|
  {
    if ms != [] {
      ReduceReverseIsOnion(handle, ms[1..], handler);
      ReduceSnoc(handle, Reverse(ms[1..]), ms[0], handler);
    }
  }

  class Pipeline {
    var middleware: seq<string>

    constructor()
      ensures middleware == []
    {
      middleware := [];
    }

    /** `pipe`: reject an unknown class or one that is not a middleware; append the rest. */
    method Pipe(name: string, classes: map<string, ClassInfo>) returns (r: Result<(), string>)
      modifies this
      ensures name !in classes ==> r == Err(NotFoundMessage(name)) && middleware == old(middleware)
      ensures name in classes && !classes[name].isMiddleware ==>
        r == Err(NotMiddlewareMessage(name)) && middleware == old(middleware)
      ensures name in classes && classes[name].isMiddleware ==> r == Ok(()) && middleware == old(middleware) + [name]
    {
      if name !in classes {
        return Err(NotFoundMessage(name));
      }
      if !classes[name].isMiddleware {
        return Err(NotMiddlewareMessage(name));
      }
      middleware := middleware + [name];
      return Ok(());
    }

    /** `process`: the reversed middleware folded around the handler, applied to the request. */
    function Process<Req, Resp>(handle: (string, Req, Req -> Resp) -> Resp, request: Req, handler: Req -> Resp): (resp: Resp)
      reads this
      ensures resp == Onion(handle, middleware, handler)(request)
      ensures middleware == [] ==> resp == handler(request)
      ensures middleware != [] ==> resp == handle(middleware[0], request, Onion(handle, middleware[1..], handler))
    {
      ReduceReverseIsOnion(handle, middleware, handler);
      Reduce(handle, Reverse(middleware), handler)(request)
    }
  }

  /**
   * When every middleware records its name and passes the request on, the
   * response lists the middleware in the order they were piped, then the handler.
   */
  lemma {:induction false} PassThroughOrder<Req>(handle: (string, Req, Req -> seq<string>) -> seq<string>, ms: seq<string>, handler: Req -> seq<string>, req: Req)
    requires forall m, r, next :: handle(m, r, next) == [m] + next(r)
    ensures Onion(handle, ms, handler)(req) == ms + handler(req)
    decreases |ms|
  {
    if ms != [] {
      PassThroughOrder(handle, ms[1..], handler, req);
      assert [ms[0]] + (ms[1..] + handler(req)) == ms + handler(req);
    }
  }

  /** A first middleware that answers without calling `next` decides the response, whatever follows it. */
  lemma ShortCircuit<Req, Resp>(handle: (string, Req, Req -> Resp) -> Resp, ms: seq<string>, handler: Req -> Resp, req: Req, answer: Resp)
    requires |ms| >= 1
    requires forall r, next :: handle(ms[0], r, next) == answer
    ensures Onion(handle, ms, handler)(req) == answer
  {
  }
}
