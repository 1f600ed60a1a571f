/**
 * The multiplexer of core/mux.go: a one-way configure-then-serve state
 * machine around a route table, a middleware stack and a pool of routing
 * contexts, and the dispatch that picks the path, the method, the table
 * entry or one of the two fallback responders.
 */
module RouteMux {
  import opened Wrappers
  import opened Methods
  import opened Http
  import opened RouteContext
  import opened RouteTree
  import opened Chaining
  import opened ContentType

  /** What routeHTTP reads from the Mux: the table, the two custom responders and the matcher. */
  datatype MuxView = MuxView(
    table: Table,
    notFound: Option<Endpoint>,           // None is a nil notFoundHandler
    methodNotAllowed: Option<Endpoint>,   // None is a nil methodNotAllowedHandler
    matcher: Matcher
  )

  /** NotFoundHandler(): the custom responder if set, else http.NotFound. */
  function NotFoundResponder(custom: Option<Endpoint>): Endpoint {
    if custom.Some? then custom.value else DefaultNotFound
  }

  /** MethodNotAllowedHandler(): the custom responder if set, else the bare 405. */
  function MethodNotAllowedResponder(custom: Option<Endpoint>): Endpoint {
    if custom.Some? then custom.value else DefaultMethodNotAllowed
  }

  /** What an endpoint answers when served with the context in state st. */
  function Respond(e: Endpoint, st: RouteState, req: Request): Response {
    match e
    case App(id) => Handled(id, st.routeParams)
    case Crash(id) => Panicked(id)
    case SlashRedirect => Redirect301(req.path + "/")
    case DefaultNotFound => NotFound404
    case DefaultMethodNotAllowed => MethodNotAllowed405
  }

  /** Without a custom responder, a miss answers 404 and an unroutable method 405; with one, it is served. */
  lemma ResponderDefaults(custom: Option<Endpoint>, st: RouteState, req: Request)
    ensures custom.None? ==> Respond(NotFoundResponder(custom), st, req) == NotFound404
    ensures custom.None? ==> Respond(MethodNotAllowedResponder(custom), st, req) == MethodNotAllowed405
    ensures custom.Some? ==> NotFoundResponder(custom) == custom.value && MethodNotAllowedResponder(custom) == custom.value
  {
  }

  /** addSlashRedirect answers 301 to the request's own path with '/' appended. */
  lemma SlashRedirectTarget(st: RouteState, req: Request)
    ensures Respond(SlashRedirect, st, req) == Redirect301(req.path + "/")
    ensures EndsWithSlash(Respond(SlashRedirect, st, req).location)
  {
  }

  /** handle accepts only patterns that begin with '/'. */
  predicate ValidPattern(p: string) {
    |p| > 0 && p[0] == '/'
  }

  /** The routing path: the context's override, else the raw (encoded) path, else the decoded path. */
  function EffectivePath(st: RouteState, req: Request): string {
    if st.routePath != "" then st.routePath
    else if req.rawPath != "" then req.rawPath
    else req.path
  }

  /** The routing method: the context's override, else the request's method. */
  function EffectiveMethod(st: RouteState, req: Request): string {
    if st.routeMethod != "" then st.routeMethod else req.httpMethod
  }

  /** The context after routeHTTP and the endpoint it serves. */
  datatype Routed = Routed(state: RouteState, endpoint: Endpoint)

  /** routeHTTP: the method is written back into the context, resolved, then looked up. */
  function Route(v: MuxView, st: RouteState, req: Request): Routed {
    var name := EffectiveMethod(st, req);
    var st1 := st.(routeMethod := name);
    if name !in MethodMap then Routed(st1, MethodNotAllowedResponder(v.methodNotAllowed))
    else
      var (st2, found) := Find(v.table, st1, MethodMap[name], EffectivePath(st, req), v.matcher);
      if found.Some? then Routed(st2, found.value.handler)
      else if st2.methodNotAllowed then Routed(st2, MethodNotAllowedResponder(v.methodNotAllowed))
      else Routed(st2, NotFoundResponder(v.notFound))
  }

  /**
   * The outcomes of routeHTTP, in terms of the table: an unknown method name and a
   * method without a key both go to the 405 responder; otherwise the first matching
   * entry is served with its params; with no match the 405 responder runs iff the
   * context's flag is set, else the 404 responder, and the params are left as they were.
   * In every case the effective method is written back and the path override is kept.
   */
  lemma RouteOutcomes(v: MuxView, st: RouteState, req: Request)
    ensures var r := Route(v, st, req); var name := EffectiveMethod(st, req);
      && r.state.routeMethod == name && r.state.routePath == st.routePath
      && (name !in MethodMap ==>
            r == Routed(st.(routeMethod := name), MethodNotAllowedResponder(v.methodNotAllowed)))
      && (name in MethodMap && MethodMap[name] !in v.table ==>
            r == Routed(st.(routeMethod := name, methodNotAllowed := true), MethodNotAllowedResponder(v.methodNotAllowed)))
      && (name in MethodMap && MethodMap[name] in v.table ==>
            var es := v.table[MethodMap[name]];
            match FirstMatch(es, EffectivePath(st, req), v.matcher)
            case Some((i, params)) =>
              r == Routed(st.(routeMethod := name, routeParams := Some(params)), es[i].handler)
            case None =>
              r.state == st.(routeMethod := name) && r.state.routeParams == st.routeParams
              && r.endpoint == (if st.methodNotAllowed then MethodNotAllowedResponder(v.methodNotAllowed)
                                else NotFoundResponder(v.notFound)))
  {
  }

  /** A method name outside methodMap never reaches the table: any two tables route it alike. */
  lemma UnknownMethodSkipsTable(v: MuxView, t: Table, st: RouteState, req: Request)
    requires EffectiveMethod(st, req) !in MethodMap
    ensures Route(v, st, req) == Route(v.(table := t), st, req)
    ensures Route(v, st, req).endpoint == MethodNotAllowedResponder(v.methodNotAllowed)
  {
  }

  /**
   * As written, Handle stores under the composite mALL key, which no method name
   * resolves to: whatever the table, such a registration never changes any routing.
   */
  lemma CompositeKeyNeverRoutes(v: MuxView, p: string, h: Endpoint, redirect: bool, st: RouteState, req: Request)
    ensures Route(v.(table := Insert(v.table, ALL, p, h, redirect)), st, req) == Route(v, st, req)
  {
    var name := EffectiveMethod(st, req);
    if name in MethodMap {
      MethodMapIsInjective();
      var k := MethodMap[name];
      InsertOtherMethods(v.table, ALL, p, h, redirect, k);
      FindIsLocal(Insert(v.table, ALL, p, h, redirect), v.table, st.(routeMethod := name), k, EffectivePath(st, req), v.matcher);
    }
  }

  /** So a mux whose only route came from Handle answers every request with the 405 responder. */
  lemma HandleOnlyAnswers405(v: MuxView, p: string, h: Endpoint, st: RouteState, req: Request)
    requires v.table == Insert(map[], ALL, p, h, false)
    ensures Route(v, st, req).endpoint == MethodNotAllowedResponder(v.methodNotAllowed)
  {
    CompositeKeyNeverRoutes(v.(table := map[]), p, h, false, st, req);
  }

  /** If nothing before index n matches and es[n] does, es[n] is the first match. */
  lemma FirstMatchAt(es: seq<Entry>, n: nat, path: string, matcher: Matcher)
    requires n < |es| && matcher(es[n].pat, path).Some?
    requires forall j :: 0 <= j < n ==> matcher(es[j].pat, path).None?
    ensures FirstMatch(es, path, matcher) == Some((n, matcher(es[n].pat, path).value))
  {
    var r := FirstMatch(es, path, matcher);
    assert r.Some?;
    assert r.value.0 == n;
  }

  /**
   * Corrected Handle, registering under each of the nine flags: for every method name
   * of methodMap, a request whose path the pattern matches, and which no earlier route
   * of that method matched, is now served by the handler.
   */
  lemma HandleRoutesEveryMethod(v: MuxView, p: string, h: Endpoint, st: RouteState, req: Request)
    requires EffectiveMethod(st, req) in MethodMap
    requires v.matcher(p, EffectivePath(st, req)).Some?
    requires FirstMatch(ListOf(v.table, MethodMap[EffectiveMethod(st, req)]), EffectivePath(st, req), v.matcher).None?
    ensures Route(v.(table := InsertAll(v.table, Flags, p, h)), st, req).endpoint == h
  {
    var name := EffectiveMethod(st, req);
    var path := EffectivePath(st, req);
    var k := MethodMap[name];
    MethodMapIsInjective();
    var l := ListOf(v.table, k);
    var t' := InsertAll(v.table, Flags, p, h);
    var es := ListOf(t', k);
    InsertAllLists(v.table, Flags, p, h, k);
    assert es == ListOf(Insert(v.table, k, p, h, false), k);
    InsertAppends(v.table, k, p, h, false);
    EntriesAfter(es, l, Entry(p, h, false));
    FirstMatchAt(es, |l|, path, v.matcher);
  }

  /** A list that starts with l + [e] holds e at |l| and agrees with l before it. */
  lemma EntriesAfter(es: seq<Entry>, l: seq<Entry>, e: Entry)
    requires |es| > |l| && es[..|l| + 1] == l + [e]
    ensures es[|l|] == e
    ensures forall j :: 0 <= j < |l| ==> es[j] == l[j]
  {
    assert es[|l|] == es[..|l| + 1][|l|];
    forall j | 0 <= j < |l|
      ensures es[j] == l[j]
    {
      assert es[j] == es[..|l| + 1][j];
    }
  }

  /**
   * Reset keeps RouteParams: a pooled context that carried params into a request which
   * then matches nothing shows those stale params to a custom not-found handler.
   */
  lemma StaleParamsReachNotFound(v: MuxView, prev: RouteState, req: Request, id: nat)
    requires v.notFound == Some(App(id))
    requires EffectiveMethod(Cleared(prev), req) in MethodMap
    requires MethodMap[req.httpMethod] in v.table
    requires FirstMatch(v.table[MethodMap[req.httpMethod]], EffectivePath(Cleared(prev), req), v.matcher).None?
    ensures var r := Route(v, Cleared(prev), req);
      Respond(r.endpoint, r.state, req) == Handled(id, prev.routeParams)
  {
  }

  /** What a request leaves behind in its context, what it passed through and what it got. */
  datatype Outcome = Outcome(state: RouteState, events: seq<Event>, response: Response)

  /** Serving a composed handler: middlewares act around their inner handler, routeHTTP routes. */
  function Run(h: Handler, v: MuxView, st: RouteState, req: Request): Outcome
    decreases h
  {
    match h
    case Leaf(e) => Outcome(st, [Reached(e)], Respond(e, st, req))
    case Dispatcher =>
      var r := Route(v, st, req);
      Outcome(r.state, [Reached(r.endpoint)], Respond(r.endpoint, r.state, req))
    case Wrap(Tap(id), inner) =>
      var o := Run(inner, v, st, req);
      // a panic unwinds past the middleware's after-work
      Outcome(o.state, [Before(id)] + o.events + (if o.response.Panicked? then [] else [After(id)]), o.response)
    case Wrap(ContentTypeFilter(allowed), inner) =>
      if Admits(allowed, req.contentType) then Run(inner, v, st, req)
      else Outcome(st, [], UnsupportedMediaType415)
  }

  predicate AllTaps(ms: seq<Middleware>) {
    forall i :: 0 <= i < |ms| ==> ms[i].Tap?
  }

  /** The before-work of the taps, outermost first. */
  function Befores(ms: seq<Middleware>): seq<Event>
    requires AllTaps(ms)
  {
    if ms == [] then [] else [Before(ms[0].id)] + Befores(ms[1..])
  }

  /** The after-work of the taps, innermost first. */
  function Afters(ms: seq<Middleware>): seq<Event>
    requires AllTaps(ms)
  {
    if ms == [] then [] else Afters(ms[1..]) + [After(ms[0].id)]
  }

  /**
   * The onion: through a chain of taps, every middleware's before-work happens, in list
   * order, before the inner handler sees the request, and its after-work in reverse order
   * after it, unless the inner handler panicked; state and response are the inner one's.
   */
  lemma {:induction false} Onion(ms: seq<Middleware>, inner: Handler, v: MuxView, st: RouteState, req: Request)
    requires AllTaps(ms)
    ensures var o := Run(Chain(ms, inner), v, st, req); var i := Run(inner, v, st, req);
      && o.state == i.state && o.response == i.response
      && o.events == Befores(ms) + i.events + (if i.response.Panicked? then [] else Afters(ms))
  {
    if ms != [] {
      Onion(ms[1..], inner, v, st, req);
      var i := Run(inner, v, st, req);
      var tail := if i.response.Panicked? then [] else Afters(ms[1..]);
      var last := if i.response.Panicked? then [] else [After(ms[0].id)];
      Regroup([Before(ms[0].id)], Befores(ms[1..]), i.events, tail, last);
    }
  }

  lemma Regroup<T>(a: seq<T>, b: seq<T>, c: seq<T>, d: seq<T>, e: seq<T>)
    ensures a + (b + c + d) + e == (a + b) + c + (d + e)
  {
  }

  /** A filter that rejects the Content-Type answers 415 and does not call its next handler. */
  lemma FilterRejectionSkipsNext(allowed: seq<string>, inner: Handler, v: MuxView, st: RouteState, req: Request)
    requires !Admits(allowed, req.contentType)
    ensures var o := Run(Wrap(ContentTypeFilter(allowed), inner), v, st, req);
      o.response == UnsupportedMediaType415 && o.events == [] && o.state == st
  {
  }

  /** A filter that admits the Content-Type is transparent. */
  lemma FilterAdmissionIsTransparent(allowed: seq<string>, inner: Handler, v: MuxView, st: RouteState, req: Request)
    requires Admits(allowed, req.contentType)
    ensures Run(Wrap(ContentTypeFilter(allowed), inner), v, st, req) == Run(inner, v, st, req)
  {
    FilterPasses(allowed, inner, v, st, req, Admits(allowed, req.contentType));
  }

  lemma FilterPasses(allowed: seq<string>, inner: Handler, v: MuxView, st: RouteState, req: Request, admitted: bool)
    requires admitted == Admits(allowed, req.contentType) && admitted
    ensures Run(Wrap(ContentTypeFilter(allowed), inner), v, st, req) == Run(inner, v, st, req)
  {
  }

  /**
   * A rejecting filter behind some taps: the taps before it run their before- and
   * after-work, nothing past it is reached, and the request is answered 415.
   */
  lemma FilterInChain(pre: seq<Middleware>, allowed: seq<string>, post: seq<Middleware>, endpoint: Handler,
                      v: MuxView, st: RouteState, req: Request)
    requires AllTaps(pre) && !Admits(allowed, req.contentType)
    ensures var o := Run(Chain(pre + [ContentTypeFilter(allowed)] + post, endpoint), v, st, req);
      o.response == UnsupportedMediaType415 && o.events == Befores(pre) + Afters(pre) && o.state == st
  {
    var filtered := Chain([ContentTypeFilter(allowed)] + post, endpoint);
    ChainAppend(pre, [ContentTypeFilter(allowed)] + post, endpoint);
    assert pre + [ContentTypeFilter(allowed)] + post == pre + ([ContentTypeFilter(allowed)] + post);
    Onion(pre, filtered, v, st, req);
    assert Befores(pre) + [] == Befores(pre);
  }

  /** ServeHTTP's result: the empty-routes panic, or what the request went through and got. */
  datatype Served = NoRoutesPanic | Completed(events: seq<Event>, response: Response)

  /** What remains of a free list after taking its last context. */
  function Popped(p: seq<Context>): seq<Context> {
    if p == [] then [] else p[..|p| - 1]
  }

  /** handler after handle: built once, from the middlewares of that moment, then kept. */
  function Built(handler: Option<Handler>, middlewares: seq<Middleware>): (r: Option<Handler>)
    ensures r.Some?
    ensures handler.Some? ==> r == handler
  {
    if handler.None? then Some(Chain(middlewares, Dispatcher)) else handler
  }

  class Mux {
    const tree: Node
    /** patternHandler.try, shared by every entry of the table. */
    const matcher: Matcher
    var middlewares: seq<Middleware>
    /** The composed mx.handler; None until the first route is registered. */
    var handler: Option<Handler>
    /** The sync.Pool of routing contexts, as a free list whose end is taken first. */
    var pool: seq<Context>
    var notFoundHandler: Option<Endpoint>
    var methodNotAllowedHandler: Option<Endpoint>

    /** The mux configuration, everything except the table and the pool. */
    function Config(): (seq<Middleware>, Option<Handler>, Option<Endpoint>, Option<Endpoint>)
      reads this
    {
      (middlewares, handler, notFoundHandler, methodNotAllowedHandler)
    }

    function View(): MuxView
      reads this, tree
    {
      MuxView(tree.handlers, notFoundHandler, methodNotAllowedHandler, matcher)
    }

    /**
     * The state machine's invariant: before the first route the table is empty, after it
     * the handler is the chain of the middlewares around routeHTTP; patterns are distinct per method.
     */
    ghost predicate Valid()
      reads this, tree
    {
      && (handler.None? ==> tree.handlers == map[])
      && (handler.Some? ==> handler.value == Chain(middlewares, Dispatcher))
      && WellFormed(tree.handlers)
    }

    /** NewMux. */
    constructor (matcher: Matcher)
      ensures fresh(tree) && tree.handlers == map[] && this.matcher == matcher
      ensures middlewares == [] && handler == None && pool == []
      ensures notFoundHandler == None && methodNotAllowedHandler == None
      ensures Valid()
    {
      tree := new Node();
      this.matcher := matcher;
      middlewares := [];
      handler := None;
      pool := [];
      notFoundHandler := None;
      methodNotAllowedHandler := None;
    }

    /** Use: appends while no route exists; afterwards it panics and changes nothing. */
    method Use(ms: seq<Middleware>) returns (panicked: bool)
      modifies this
      ensures panicked <==> old(handler).Some?
      ensures panicked ==> Config() == old(Config())
      ensures !panicked ==> middlewares == old(middlewares) + ms && handler == None
      ensures notFoundHandler == old(notFoundHandler) && methodNotAllowedHandler == old(methodNotAllowedHandler)
      ensures pool == old(pool)
      ensures old(Valid()) ==> Valid()
    {
      if handler.Some? {
        return true;
      }
      middlewares := middlewares + ms;
      return false;
    }

    /** buildRouteHandler. */
    method BuildRouteHandler()
      modifies this
      ensures handler == Some(Chain(middlewares, Dispatcher))
      ensures middlewares == old(middlewares) && pool == old(pool)
      ensures notFoundHandler == old(notFoundHandler) && methodNotAllowedHandler == old(methodNotAllowedHandler)
    {
      var h := BuildChain(middlewares, Dispatcher);
      handler := Some(h);
    }

    /** The effect of handle(m, pattern, h), for reuse by its callers. */
    twostate predicate Registered(m: MethodTyp, pattern: string, h: Endpoint, panicked: bool)
      reads this, tree
    {
      && (panicked <==> !ValidPattern(pattern))
      && pool == old(pool) && middlewares == old(middlewares)
      && notFoundHandler == old(notFoundHandler) && methodNotAllowedHandler == old(methodNotAllowedHandler)
      && (panicked ==> handler == old(handler) && tree.handlers == old(tree.handlers))
      && (!panicked ==>
            && handler == Built(old(handler), old(middlewares))
            && tree.handlers == Insert(old(tree.handlers), m, pattern, h, false))
    }

    /** handle: check the pattern, build the handler on the first route, insert into the table. */
    method Register(m: MethodTyp, pattern: string, h: Endpoint) returns (panicked: bool)
      modifies this, tree
      ensures Registered(m, pattern, h, panicked)
      ensures old(Valid()) ==> Valid()
    {
      if |pattern| == 0 || pattern[0] != '/' {
        return true;
      }
      if handler.None? {
        BuildRouteHandler();
      }
      if WellFormed(tree.handlers) {
        InsertKeepsWellFormed(tree.handlers, m, pattern, h, false);
      }
      tree.InsertRoute(m, pattern, h, false);
      return false;
    }

    /** Handle as written: one registration under the composite mALL key. */
    method HandleUnderAllKey(pattern: string, h: Endpoint) returns (panicked: bool)
      modifies this, tree
      ensures Registered(ALL, pattern, h, panicked)
      ensures old(Valid()) ==> Valid()
    {
      panicked := Register(ALL, pattern, h);
    }

    /** Handle as intended: one registration under each of the nine method flags, in order. */
    method Handle(pattern: string, h: Endpoint) returns (panicked: bool)
      modifies this, tree
      ensures panicked <==> !ValidPattern(pattern)
      ensures pool == old(pool) && middlewares == old(middlewares)
      ensures notFoundHandler == old(notFoundHandler) && methodNotAllowedHandler == old(methodNotAllowedHandler)
      ensures panicked ==> handler == old(handler) && tree.handlers == old(tree.handlers)
      ensures !panicked ==>
        handler == Built(old(handler), old(middlewares)) && tree.handlers == InsertAll(old(tree.handlers), Flags, pattern, h)
      ensures old(Valid()) ==> Valid()
    {
      panicked := false;
      for i := 0 to |Flags|
        invariant i > 0 ==> ValidPattern(pattern)
        invariant pool == old(pool) && middlewares == old(middlewares)
        invariant notFoundHandler == old(notFoundHandler) && methodNotAllowedHandler == old(methodNotAllowedHandler)
        invariant handler == if i == 0 then old(handler) else Built(old(handler), old(middlewares))
        invariant tree.handlers == InsertAll(old(tree.handlers), Flags[..i], pattern, h)
        invariant old(Valid()) ==> Valid()
      {
        assert Flags[..i + 1][..i] == Flags[..i];
        panicked := Register(Flags[i], pattern, h);
        if panicked {
          return;
        }
      }
      assert Flags[..|Flags|] == Flags;
    }

    /** Method: the name is upper-cased and looked up; an unknown name panics. */
    method Method(name: string, pattern: string, h: Endpoint) returns (panicked: bool)
      modifies this, tree
      ensures ResolveName(name).None? ==> panicked && Config() == old(Config()) && pool == old(pool)
                                          && tree.handlers == old(tree.handlers)
      ensures ResolveName(name).Some? ==> Registered(ResolveName(name).value, pattern, h, panicked)
      ensures old(Valid()) ==> Valid()
    {
      var m := ResolveName(name);
      if m.None? {
        return true;
      }
      panicked := Register(m.value, pattern, h);
    }

    method Connect(pattern: string, h: Endpoint) returns (panicked: bool)
      modifies this, tree
      ensures Registered(CONNECT, pattern, h, panicked)
      ensures old(Valid()) ==> Valid()
    {
      panicked := Register(CONNECT, pattern, h);
    }

    method Delete(pattern: string, h: Endpoint) returns (panicked: bool)
      modifies this, tree
      ensures Registered(DELETE, pattern, h, panicked)
      ensures old(Valid()) ==> Valid()
    {
      panicked := Register(DELETE, pattern, h);
    }

    method Get(pattern: string, h: Endpoint) returns (panicked: bool)
      modifies this, tree
      ensures Registered(GET, pattern, h, panicked)
      ensures old(Valid()) ==> Valid()
    {
      panicked := Register(GET, pattern, h);
    }

    method Head(pattern: string, h: Endpoint) returns (panicked: bool)
      modifies this, tree
      ensures Registered(HEAD, pattern, h, panicked)
      ensures old(Valid()) ==> Valid()
    {
      panicked := Register(HEAD, pattern, h);
    }

    method Options(pattern: string, h: Endpoint) returns (panicked: bool)
      modifies this, tree
      ensures Registered(OPTIONS, pattern, h, panicked)
      ensures old(Valid()) ==> Valid()
    {
      panicked := Register(OPTIONS, pattern, h);
    }

    method Patch(pattern: string, h: Endpoint) returns (panicked: bool)
      modifies this, tree
      ensures Registered(PATCH, pattern, h, panicked)
      ensures old(Valid()) ==> Valid()
    {
      panicked := Register(PATCH, pattern, h);
    }

    method Post(pattern: string, h: Endpoint) returns (panicked: bool)
      modifies this, tree
      ensures Registered(POST, pattern, h, panicked)
      ensures old(Valid()) ==> Valid()
    {
      panicked := Register(POST, pattern, h);
    }

    method Put(pattern: string, h: Endpoint) returns (panicked: bool)
      modifies this, tree
      ensures Registered(PUT, pattern, h, panicked)
      ensures old(Valid()) ==> Valid()
    {
      panicked := Register(PUT, pattern, h);
    }

    method Trace(pattern: string, h: Endpoint) returns (panicked: bool)
      modifies this, tree
      ensures Registered(TRACE, pattern, h, panicked)
      ensures old(Valid()) ==> Valid()
    {
      panicked := Register(TRACE, pattern, h);
    }

    /** NotFound: None (a nil func) restores the default responder. */
    method NotFound(custom: Option<Endpoint>)
      modifies this
      ensures notFoundHandler == custom
      ensures middlewares == old(middlewares) && handler == old(handler) && pool == old(pool)
      ensures methodNotAllowedHandler == old(methodNotAllowedHandler)
      ensures old(Valid()) ==> Valid()
    {
      notFoundHandler := custom;
    }

    /** MethodNotAllowed: None (a nil func) restores the default responder. */
    method MethodNotAllowed(custom: Option<Endpoint>)
      modifies this
      ensures methodNotAllowedHandler == custom
      ensures middlewares == old(middlewares) && handler == old(handler) && pool == old(pool)
      ensures notFoundHandler == old(notFoundHandler)
      ensures old(Valid()) ==> Valid()
    {
      methodNotAllowedHandler := custom;
    }

    method NotFoundHandler() returns (e: Endpoint)
      ensures notFoundHandler.Some? ==> e == notFoundHandler.value
      ensures notFoundHandler.None? ==> e == DefaultNotFound
    {
      if notFoundHandler.Some? {
        return notFoundHandler.value;
      }
      return DefaultNotFound;
    }

    method MethodNotAllowedHandler() returns (e: Endpoint)
      ensures methodNotAllowedHandler.Some? ==> e == methodNotAllowedHandler.value
      ensures methodNotAllowedHandler.None? ==> e == DefaultMethodNotAllowed
    {
      if methodNotAllowedHandler.Some? {
        return methodNotAllowedHandler.value;
      }
      return DefaultMethodNotAllowed;
    }

    /** routeHTTP on the context rctx: returns the endpoint served and its response. */
    method RouteHTTP(rctx: Context, req: Request) returns (e: Endpoint, resp: Response)
      modifies rctx
      ensures Routed(rctx.State(), e) == Route(View(), old(rctx.State()), req)
      ensures resp == Respond(e, rctx.State(), req)
    {
      var routePath := rctx.routePath;
      if routePath == "" {
        if req.rawPath != "" {
          routePath := req.rawPath;
        } else {
          routePath := req.path;
        }
      }
      if rctx.routeMethod == "" {
        rctx.routeMethod := req.httpMethod;
      }
      if rctx.routeMethod !in MethodMap {
        e := MethodNotAllowedHandler();
        resp := Respond(e, rctx.State(), req);
        return;
      }
      var m := MethodMap[rctx.routeMethod];
      var found := tree.FindRoute(rctx, m, routePath, matcher);
      if found.Some? {
        e := found.value.handler;
      } else if rctx.methodNotAllowed {
        e := MethodNotAllowedHandler();
      } else {
        e := NotFoundHandler();
      }
      resp := Respond(e, rctx.State(), req);
    }

    /** Serving h with the context rctx: h.ServeHTTP, down the middlewares to routeHTTP. */
    method Execute(h: Handler, rctx: Context, req: Request) returns (o: Outcome)
      modifies rctx
      ensures o == Run(h, View(), old(rctx.State()), req)
      ensures rctx.State() == o.state
      decreases h
    {
      match h
      case Leaf(e) =>
        o := Outcome(rctx.State(), [Reached(e)], Respond(e, rctx.State(), req));
      case Dispatcher =>
        var e, resp := RouteHTTP(rctx, req);
        o := Outcome(rctx.State(), [Reached(e)], resp);
      case Wrap(Tap(id), inner) =>
        var io := Execute(inner, rctx, req);
        var after := if io.response.Panicked? then [] else [After(id)];
        o := Outcome(io.state, [Before(id)] + io.events + after, io.response);
      case Wrap(ContentTypeFilter(cT), inner) =>
        var pass := CheckRequest(cT, req.contentType);
        if pass {
          o := Execute(inner, rctx, req);
        } else {
          o := Outcome(rctx.State(), [], UnsupportedMediaType415);
        }
    }

    /** pool.Get: the last free context, or a new one when the list is empty. */
    method PoolGet() returns (c: Context)
      modifies this
      ensures old(pool) == [] ==> fresh(c) && c.State() == Initial
      ensures old(pool) != [] ==> c == old(pool)[|old(pool)| - 1]
      ensures pool == Popped(old(pool))
      ensures Config() == old(Config())
    {
      if pool == [] {
        c := new Context();
      } else {
        c := pool[|pool| - 1];
        pool := pool[..|pool| - 1];
      }
    }

    /** pool.Put. */
    method PoolPut(c: Context)
      modifies this
      ensures pool == old(pool) + [c]
      ensures Config() == old(Config())
    {
      pool := pool + [c];
    }

    /**
     * ServeHTTP: panic without routes; otherwise take a context, reset it, serve the
     * composed handler with it, and put it back. The put is not deferred, so a request
     * whose handler panics does not return its context to the pool. Only the context
     * taken is written; the other pooled contexts keep their state.
     */
    method ServeHTTP(req: Request) returns (served: Served)
      modifies this, if pool == [] then {} else {pool[|pool| - 1]}
      ensures Config() == old(Config())
      ensures forall c :: c in pool ==> c in old(pool) || fresh(c)
      ensures old(handler).None? ==> served == NoRoutesPanic && pool == old(pool)
      ensures old(handler).Some? ==>
        var s0 := old(if pool == [] then Initial else pool[|pool| - 1].State());
        var o := Run(handler.value, View(), Cleared(s0), req);
        && served == Completed(o.events, o.response)
        && (o.response.Panicked? ==> pool == Popped(old(pool)))
        && (!o.response.Panicked? ==>
              && |pool| == |Popped(old(pool))| + 1 && pool[..|pool| - 1] == Popped(old(pool))
              && (old(pool) != [] ==> pool == old(pool))
              && pool[|pool| - 1].State() == o.state)
    {
      if handler.None? {
        return NoRoutesPanic;
      }
      var rctx := PoolGet();
      rctx.Reset();
      var o := Execute(handler.value, rctx, req);
      if o.response.Panicked? {
        return Completed(o.events, o.response);
      }
      PoolPut(rctx);
      served := Completed(o.events, o.response);
    }
  }
}
