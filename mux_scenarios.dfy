/**
 * The scenarios of core/mux_test.go, played on a fresh Mux whose matcher meets
 * the test evidence. Application handlers are App(id) endpoints and middlewares
 * Tap(id) values; each method's postcondition is what the test observes.
 */
module MuxScenarios {
  import opened Wrappers
  import opened Methods
  import opened Http
  import opened RouteContext
  import opened RouteTree
  import opened Chaining
  import opened Segments
  import opened RouteMux

  function Req(m: string, path: string): Request {
    Request(m, path, "", "")
  }

  /**
   * One request on a mux whose pool holds at most one context, given the outcome Run
   * predicts for it; the context ends up as the only pooled one.
   */
  method ServeWith(mux: Mux, req: Request, ghost o: Outcome) returns (served: Served)
    requires mux.handler.Some? && |mux.pool| <= 1
    requires o == Run(mux.handler.value, mux.View(), Cleared(if mux.pool == [] then Initial else mux.pool[0].State()), req)
    requires !o.response.Panicked?
    modifies mux, mux.pool
    ensures served == Completed(o.events, o.response)
    ensures mux.View() == old(mux.View()) && mux.handler == old(mux.handler)
    ensures |mux.pool| == 1 && mux.pool[0].State() == o.state
    ensures old(mux.pool) == [] ==> fresh(mux.pool[0])
    ensures old(mux.pool) != [] ==> mux.pool == old(mux.pool)
  {
    served := mux.ServeHTTP(req);
    assert mux.pool[|mux.pool| - 1] in mux.pool;
  }

  /** A new mux with one GET route, no middlewares and the given custom responders. */
  method SingleRoute(matcher: (string, string) -> Option<Values>, p: string, h: Endpoint,
                     notFound: Option<Endpoint>, methodNotAllowed: Option<Endpoint>) returns (mux: Mux)
    requires ValidPattern(p) && !EndsWithSlash(p)
    ensures fresh(mux) && fresh(mux.tree) && mux.pool == [] && mux.handler == Some(Dispatcher)
    ensures mux.View() == MuxView(map[GET := [Entry(p, h, false)]], notFound, methodNotAllowed, matcher)
  {
    mux := new Mux(matcher);
    OneRoute(GET, p, h);
    var bad := mux.Get(p, h);
    mux.NotFound(notFound);
    mux.MethodNotAllowed(methodNotAllowed);
  }

  /** TestMuxEmptyRoutes: serving before any route is registered panics. */
  method EmptyRoutes(matcher: (string, string) -> Option<Values>) returns (served: Served)
    ensures served == NoRoutesPanic
  {
    var mux := new Mux(matcher);
    served := mux.ServeHTTP(Req("GET", "/"));
  }

  /** TestMiddlewarePanicOnLateUse: Use after a route panics and leaves the stack alone. */
  method PanicOnLateUse(matcher: (string, string) -> Option<Values>) returns (panicked: bool, stack: seq<Middleware>)
    ensures panicked && stack == []
  {
    var mux := new Mux(matcher);
    var bad := mux.Get("/", App(1));
    panicked := mux.Use([Tap(1)]);
    stack := mux.middlewares;
  }

  /** A first registration of a pattern without a trailing '/' makes a one-entry table. */
  lemma OneRoute(m: MethodTyp, p: string, h: Endpoint)
    requires !EndsWithSlash(p)
    ensures Insert(map[], m, p, h, false) == map[m := [Entry(p, h, false)]]
  {
    assert ListOf(map[], m) + [Entry(p, h, false)] == [Entry(p, h, false)];
  }

  lemma PlainRouting(matcher: (string, string) -> Option<Values>)
    requires TestEvidence(matcher)
    ensures var v := MuxView(map[GET := [Entry("/hi", App(1), false)]], Some(App(2)), None, matcher);
      var st1 := Initial.(routeMethod := "GET", routeParams := matcher("/hi", "/hi"));
      && Run(Dispatcher, v, Initial, Req("GET", "/hi")) == Outcome(st1, [Reached(App(1))], Handled(1, matcher("/hi", "/hi")))
      && Run(Dispatcher, v, Cleared(st1), Req("GET", "/nothing-here")).events == [Reached(App(2))]
      && Run(Dispatcher, v, Cleared(st1), Req("GET", "/nothing-here")).response == Handled(2, matcher("/hi", "/hi"))
  {
    assert "GET" in MethodMap && MethodMap["GET"] == GET;
  }

  /**
   * TestMuxPlain: GET /hi is served; GET /nothing-here goes to the custom not-found
   * handler, which, the context having been pooled and reset, still sees /hi's params.
   */
  method Plain(matcher: (string, string) -> Option<Values>) returns (hi: Served, missing: Served)
    requires TestEvidence(matcher)
    ensures hi == Completed([Reached(App(1))], Handled(1, matcher("/hi", "/hi")))
    ensures missing == Completed([Reached(App(2))], Handled(2, matcher("/hi", "/hi")))
  {
    var mux := SingleRoute(matcher, "/hi", App(1), Some(App(2)), None);
    var v := mux.View();
    var st1 := Initial.(routeMethod := "GET", routeParams := matcher("/hi", "/hi"));
    PlainRouting(matcher);
    ClearedIdempotent(st1);
    hi := ServeWith(mux, Req("GET", "/hi"), Outcome(st1, [Reached(App(1))], Handled(1, matcher("/hi", "/hi"))));
    assert mux.pool == [mux.pool[0]];
    missing := ServeWith(mux, Req("GET", "/nothing-here"), Run(Dispatcher, v, Cleared(st1), Req("GET", "/nothing-here")));
  }

  lemma RootRouting(matcher: (string, string) -> Option<Values>)
    requires TestEvidence(matcher)
    ensures var v := MuxView(map[GET := [Entry("/root", App(1), false)]], None, Some(App(2)), matcher);
      var st1 := Initial.(routeMethod := "GET", routeParams := matcher("/root", "/root"));
      && Run(Dispatcher, v, Initial, Req("GET", "/root")) == Outcome(st1, [Reached(App(1))], Handled(1, matcher("/root", "/root")))
      && Run(Dispatcher, v, Cleared(st1), Req("PUT", "/root")).events == [Reached(App(2))]
      && Run(Dispatcher, v, Cleared(st1), Req("PUT", "/root")).response == Handled(2, matcher("/root", "/root"))
  {
    assert "GET" in MethodMap && MethodMap["GET"] == GET;
    assert "PUT" in MethodMap && MethodMap["PUT"] == PUT && PUT != GET;
  }

  /**
   * TestMuxNestedMethodNotAllowed: GET /root is served; PUT /root, a method with no
   * routes at all, goes to the custom method-not-allowed handler.
   */
  method NestedMethodNotAllowed(matcher: (string, string) -> Option<Values>) returns (get: Served, put: Served)
    requires TestEvidence(matcher)
    ensures get == Completed([Reached(App(1))], Handled(1, matcher("/root", "/root")))
    ensures put == Completed([Reached(App(2))], Handled(2, matcher("/root", "/root")))
  {
    var mux := SingleRoute(matcher, "/root", App(1), None, Some(App(2)));
    var v := mux.View();
    var st1 := Initial.(routeMethod := "GET", routeParams := matcher("/root", "/root"));
    RootRouting(matcher);
    ClearedIdempotent(st1);
    get := ServeWith(mux, Req("GET", "/root"), Outcome(st1, [Reached(App(1))], Handled(1, matcher("/root", "/root"))));
    assert mux.pool == [mux.pool[0]];
    put := ServeWith(mux, Req("PUT", "/root"), Run(Dispatcher, v, Cleared(st1), Req("PUT", "/root")));
  }

  lemma NamedParamRouting(matcher: (string, string) -> Option<Values>)
    requires TestEvidence(matcher)
    ensures var v := MuxView(map[GET := [Entry("/hi/:name", App(1), false)]], Some(App(2)), None, matcher);
      var params := Some(map["name" := ["daniel"]]);
      var st1 := Initial.(routeMethod := "GET", routeParams := params);
      && Run(Dispatcher, v, Initial, Req("GET", "/hi/daniel")) == Outcome(st1, [Reached(App(1))], Handled(1, params))
      && Run(Dispatcher, v, Cleared(st1), Req("GET", "/hi")).events == [Reached(App(2))]
      && Run(Dispatcher, v, Cleared(st1), Req("GET", "/hi")).response == Handled(2, params)
  {
    assert "GET" in MethodMap && MethodMap["GET"] == GET;
  }

  /**
   * TestMuxWithMatchPath: GET /hi/daniel binds name = daniel; GET /hi matches nothing
   * and reaches the custom not-found handler, which still sees name = daniel.
   */
  method WithMatchPath(matcher: (string, string) -> Option<Values>) returns (daniel: Served, bare: Served)
    requires TestEvidence(matcher)
    ensures daniel == Completed([Reached(App(1))], Handled(1, Some(map["name" := ["daniel"]])))
    ensures bare == Completed([Reached(App(2))], Handled(2, Some(map["name" := ["daniel"]])))
  {
    var mux := SingleRoute(matcher, "/hi/:name", App(1), Some(App(2)), None);
    var v := mux.View();
    var params := Some(map["name" := ["daniel"]]);
    var st1 := Initial.(routeMethod := "GET", routeParams := params);
    NamedParamRouting(matcher);
    ClearedIdempotent(st1);
    daniel := ServeWith(mux, Req("GET", "/hi/daniel"), Outcome(st1, [Reached(App(1))], Handled(1, params)));
    assert mux.pool == [mux.pool[0]];
    bare := ServeWith(mux, Req("GET", "/hi"), Run(Dispatcher, v, Cleared(st1), Req("GET", "/hi")));
  }

  /**
   * Handle as written: the only route sits under the mALL key, so GET /ping is answered
   * 405. Handle as intended serves it.
   */
  method HandleAsWritten(matcher: (string, string) -> Option<Values>) returns (served: Served)
    requires TestEvidence(matcher)
    ensures served == Completed([Reached(DefaultMethodNotAllowed)], MethodNotAllowed405)
  {
    var mux := new Mux(matcher);
    assert ValidPattern("/ping");
    var bad := mux.HandleUnderAllKey("/ping", App(1));
    var v := mux.View();
    HandleOnlyAnswers405(v, "/ping", App(1), Initial, Req("GET", "/ping"));
    served := mux.ServeHTTP(Req("GET", "/ping"));
  }

  method HandleAsIntended(matcher: (string, string) -> Option<Values>) returns (served: Served)
    requires TestEvidence(matcher)
    ensures served.Completed? && served.events == [Reached(App(1))] && served.response.Handled?
    ensures served.response.id == 1
  {
    var mux := new Mux(matcher);
    assert ValidPattern("/ping");
    var bad := mux.Handle("/ping", App(1));
    var v := mux.View();
    assert "GET" in MethodMap;
    HandleRoutesEveryMethod(v.(table := map[]), "/ping", App(1), Initial, Req("GET", "/ping"));
    served := mux.ServeHTTP(Req("GET", "/ping"));
  }

  /**
   * A panicking handler: ServeHTTP's Put is not deferred, so the context is not returned
   * and the next request allocates another one.
   */
  method PanicLeaksContext(matcher: (string, string) -> Option<Values>) returns (served: Served, pooled: nat)
    requires TestEvidence(matcher)
    ensures served == Completed([Reached(Crash(1))], Panicked(1))
    ensures pooled == 0
  {
    var mux := SingleRoute(matcher, "/ping", Crash(1), None, None);
    assert "GET" in MethodMap && MethodMap["GET"] == GET;
    served := mux.ServeHTTP(Req("GET", "/ping"));
    pooled := |mux.pool|;
  }

  /** A fresh pattern without a trailing '/' is appended to its method's list, and that is all. */
  lemma AppendRoute(t: Table, m: MethodTyp, p: string, h: Endpoint, redirect: bool)
    requires !HasPattern(ListOf(t, m), p) && !EndsWithSlash(p)
    ensures Insert(t, m, p, h, redirect) == t[m := ListOf(t, m) + [Entry(p, h, redirect)]]
  {
  }

  /** The GET list of TestMux: "/", its redirect "", then "/ping", "/pingall" and "/ping/all". */
  const MuxGets: seq<Entry> := [
    Entry("/", App(10), false), Entry("", SlashRedirect, true), Entry("/ping", App(11), false),
    Entry("/pingall", App(12), false), Entry("/ping/all", App(12), false)
  ]

  const MuxTable: Table := map[GET := MuxGets, HEAD := [Entry("/ping", App(13), false)], POST := [Entry("/ping", App(14), false)]]

  const MuxStack: seq<Middleware> := [Tap(1), Tap(2), Tap(3), Tap(4)]

  lemma RootRegistration()
    ensures Insert(map[], GET, "/", App(10), false) == map[GET := MuxGets[..2]]
  {
    var t1 := map[GET := [Entry("/", App(10), false)]];
    assert EndsWithSlash("/") && "/"[..0] == "";
    assert ListOf(map[], GET) + [Entry("/", App(10), false)] == [Entry("/", App(10), false)];
    assert Insert(map[], GET, "/", App(10), false) == Insert(t1, GET, "", SlashRedirect, true);
    AppendRoute(t1, GET, "", SlashRedirect, true);
    assert [Entry("/", App(10), false)] + [Entry("", SlashRedirect, true)] == MuxGets[..2];
  }

  lemma MuxGetRegistrations()
    ensures Insert(Insert(Insert(map[GET := MuxGets[..2]], GET, "/ping", App(11), false),
                          GET, "/pingall", App(12), false), GET, "/ping/all", App(12), false)
            == map[GET := MuxGets]
  {
    AppendRoute(map[GET := MuxGets[..2]], GET, "/ping", App(11), false);
    assert MuxGets[..2] + [Entry("/ping", App(11), false)] == MuxGets[..3];
    AppendRoute(map[GET := MuxGets[..3]], GET, "/pingall", App(12), false);
    assert MuxGets[..3] + [Entry("/pingall", App(12), false)] == MuxGets[..4];
    AppendRoute(map[GET := MuxGets[..4]], GET, "/ping/all", App(12), false);
    assert MuxGets[..4] + [Entry("/ping/all", App(12), false)] == MuxGets;
  }

  lemma MuxOtherRegistrations()
    ensures Insert(Insert(map[GET := MuxGets], HEAD, "/ping", App(13), false), POST, "/ping", App(14), false) == MuxTable
  {
    assert GET.bits != HEAD.bits && GET.bits != POST.bits && HEAD.bits != POST.bits;
    var t1 := map[GET := MuxGets, HEAD := [Entry("/ping", App(13), false)]];
    AppendRoute(map[GET := MuxGets], HEAD, "/ping", App(13), false);
    assert ListOf(map[GET := MuxGets], HEAD) + [Entry("/ping", App(13), false)] == [Entry("/ping", App(13), false)];
    AppendRoute(t1, POST, "/ping", App(14), false);
    assert ListOf(t1, POST) + [Entry("/ping", App(14), false)] == [Entry("/ping", App(14), false)];
  }

  /** GET / reaches the index handler, whatever the pooled context held. */
  lemma MuxRoutesIndex(matcher: (string, string) -> Option<Values>, prev: RouteState)
    requires TestEvidence(matcher)
    ensures var r := Route(MuxView(MuxTable, None, None, matcher), Cleared(prev), Req("GET", "/"));
      r.endpoint == App(10) && r.state.routeParams == matcher("/", "/")
  {
    assert "GET" in MethodMap && MethodMap["GET"] == GET;
    FirstMatchAt(MuxGets, 0, "/", matcher);
  }

  /** GET /ping passes over "/" and its redirect to the ping handler. */
  lemma MuxRoutesPing(matcher: (string, string) -> Option<Values>, prev: RouteState)
    requires TestEvidence(matcher)
    ensures var r := Route(MuxView(MuxTable, None, None, matcher), Cleared(prev), Req("GET", "/ping"));
      r.endpoint == App(11) && r.state.routeParams == matcher("/ping", "/ping")
  {
    assert "GET" in MethodMap && MethodMap["GET"] == GET;
    FirstMatchAt(MuxGets, 2, "/ping", matcher);
  }

  /** GET /pingall passes over "/", its redirect and "/ping" to the ping-all handler. */
  lemma MuxRoutesPingall(matcher: (string, string) -> Option<Values>, prev: RouteState)
    requires TestEvidence(matcher)
    ensures var r := Route(MuxView(MuxTable, None, None, matcher), Cleared(prev), Req("GET", "/pingall"));
      r.endpoint == App(12) && r.state.routeParams == matcher("/pingall", "/pingall")
  {
    assert "GET" in MethodMap && MethodMap["GET"] == GET;
    FirstMatchAt(MuxGets, 3, "/pingall", matcher);
  }

  /** GET /ping/all passes over "/", its redirect, "/ping" and "/pingall" to its own handler. */
  lemma MuxRoutesPingAll(matcher: (string, string) -> Option<Values>, prev: RouteState)
    requires TestEvidence(matcher)
    ensures var r := Route(MuxView(MuxTable, None, None, matcher), Cleared(prev), Req("GET", "/ping/all"));
      r.endpoint == App(12) && r.state.routeParams == matcher("/ping/all", "/ping/all")
  {
    assert "GET" in MethodMap && MethodMap["GET"] == GET;
    FirstMatchAt(MuxGets, 4, "/ping/all", matcher);
  }

  /** HEAD /ping uses HEAD's own list. */
  lemma MuxRoutesHead(matcher: (string, string) -> Option<Values>, prev: RouteState)
    requires TestEvidence(matcher)
    ensures var r := Route(MuxView(MuxTable, None, None, matcher), Cleared(prev), Req("HEAD", "/ping"));
      r.endpoint == App(13) && r.state.routeParams == matcher("/ping", "/ping")
  {
    assert "HEAD" in MethodMap && MethodMap["HEAD"] == HEAD;
    FirstMatchAt([Entry("/ping", App(13), false)], 0, "/ping", matcher);
  }

  /** The four taps wrap the endpoint: all before-work first, in Use order, then the endpoint. */
  lemma MuxOnion(v: MuxView, st: RouteState, req: Request, id: nat)
    requires Route(v, st, req).endpoint == App(id)
    ensures var o := Run(Chain(MuxStack, Dispatcher), v, st, req);
      && o.events == [Before(1), Before(2), Before(3), Before(4), Reached(App(id)),
                      After(4), After(3), After(2), After(1)]
      && o.response == Handled(id, Route(v, st, req).state.routeParams)
  {
    var r := Route(v, st, req);
    assert Run(Dispatcher, v, st, req) == Outcome(r.state, [Reached(App(id))], Handled(id, r.state.routeParams));
    assert AllTaps(MuxStack);
    Onion(MuxStack, Dispatcher, v, st, req);
    assert MuxStack[1..][1..][1..] == [Tap(4)];
    assert Befores(MuxStack) == [Before(1), Before(2), Before(3), Before(4)];
    assert Afters(MuxStack) == [After(4), After(3), After(2), After(1)];
  }

  /** The four Use calls of TestMux, on a new mux. */
  method StackedMux(matcher: (string, string) -> Option<Values>) returns (mux: Mux)
    ensures fresh(mux) && fresh(mux.tree) && mux.pool == [] && mux.handler == None
    ensures mux.View() == MuxView(map[], None, None, matcher) && mux.middlewares == MuxStack
  {
    mux := new Mux(matcher);
    var late := mux.Use([Tap(1)]);
    late := mux.Use([Tap(2)]);
    late := mux.Use([Tap(3)]);
    late := mux.Use([Tap(4)]);
  }

  /** The router of TestMux, configured as the test configures it. */
  method BuildTestMux(matcher: (string, string) -> Option<Values>) returns (mux: Mux)
    ensures fresh(mux) && fresh(mux.tree) && mux.pool == []
    ensures mux.View() == MuxView(MuxTable, None, None, matcher)
    ensures mux.handler == Some(Chain(MuxStack, Dispatcher))
  {
    mux := StackedMux(matcher);
    assert ValidPattern("/") && ValidPattern("/ping") && ValidPattern("/pingall") && ValidPattern("/ping/all");
    RootRegistration();
    var bad := mux.Get("/", App(10));
    assert mux.tree.handlers == map[GET := MuxGets[..2]];
    LookupIsCaseSensitive();
    ResolveNameAgreesWithMap("GET");
    assert ResolveName("GET") == Some(GET);
    MuxGetRegistrations();
    bad := mux.Method("GET", "/ping", App(11));
    bad := mux.Method("GET", "/pingall", App(12));
    bad := mux.Method("get", "/ping/all", App(12));
    assert mux.tree.handlers == map[GET := MuxGets];
    MuxOtherRegistrations();
    bad := mux.Head("/ping", App(13));
    bad := mux.Post("/ping", App(14));
    assert mux.tree.handlers == MuxTable;
  }

  /** What TestMux observes of one request: the four taps around the handler it reaches. */
  function Traced(id: nat): seq<Event> {
    [Before(1), Before(2), Before(3), Before(4), Reached(App(id)), After(4), After(3), After(2), After(1)]
  }

  /** The five requests of TestMux, with the handler each one reaches. */
  predicate MuxRequest(req: Request, id: nat) {
    || (req == Req("GET", "/") && id == 10)
    || (req == Req("GET", "/ping") && id == 11)
    || (req == Req("GET", "/pingall") && id == 12)
    || (req == Req("GET", "/ping/all") && id == 12)
    || (req == Req("HEAD", "/ping") && id == 13)
  }

  lemma MuxServes(matcher: (string, string) -> Option<Values>, prev: RouteState, req: Request, id: nat)
    requires TestEvidence(matcher) && MuxRequest(req, id)
    ensures var o := Run(Chain(MuxStack, Dispatcher), MuxView(MuxTable, None, None, matcher), Cleared(prev), req);
      && o.events == Traced(id)
      && o.response == Handled(id, matcher(req.path, req.path))
  {
    if req == Req("GET", "/") {
      MuxRoutesIndex(matcher, prev);
    } else if req == Req("GET", "/ping") {
      MuxRoutesPing(matcher, prev);
    } else if req == Req("GET", "/pingall") {
      MuxRoutesPingall(matcher, prev);
    } else if req == Req("GET", "/ping/all") {
      MuxRoutesPingAll(matcher, prev);
    } else {
      MuxRoutesHead(matcher, prev);
    }
    MuxOnion(MuxView(MuxTable, None, None, matcher), Cleared(prev), req, id);
  }

  /** One request of TestMux on the configured router, whatever the pooled context holds. */
  method ServeTestRequest(mux: Mux, matcher: (string, string) -> Option<Values>, req: Request, id: nat)
    returns (served: Served)
    requires TestEvidence(matcher) && MuxRequest(req, id)
    requires mux.View() == MuxView(MuxTable, None, None, matcher)
    requires mux.handler == Some(Chain(MuxStack, Dispatcher)) && |mux.pool| <= 1
    modifies mux, mux.pool
    ensures served == Completed(Traced(id), Handled(id, matcher(req.path, req.path)))
    ensures mux.View() == old(mux.View()) && mux.handler == old(mux.handler) && |mux.pool| == 1
    ensures old(mux.pool) == [] ==> fresh(mux.pool[0])
    ensures old(mux.pool) != [] ==> mux.pool == old(mux.pool)
  {
    var prev := if mux.pool == [] then Initial else mux.pool[0].State();
    MuxServes(matcher, prev, req, id);
    served := ServeWith(mux, req, Run(mux.handler.value, mux.View(), Cleared(prev), req));
  }

  /**
   * TestMux: four middlewares, then routes by Get, Method (also with the lower-case
   * name "get"), Head and Post. The five requests, in the test's order, each run every
   * middleware before the endpoint, in the order of the Use calls, reach their own
   * handler, and unwind in reverse.
   */
  method MuxMiddlewaresAndMethods(matcher: (string, string) -> Option<Values>)
    returns (index: Served, ping: Served, pingall: Served, pingAll: Served, head: Served)
    requires TestEvidence(matcher)
    ensures index == Completed(Traced(10), Handled(10, matcher("/", "/")))
    ensures ping == Completed(Traced(11), Handled(11, matcher("/ping", "/ping")))
    ensures pingall == Completed(Traced(12), Handled(12, matcher("/pingall", "/pingall")))
    ensures pingAll == Completed(Traced(12), Handled(12, matcher("/ping/all", "/ping/all")))
    ensures head == Completed(Traced(13), Handled(13, matcher("/ping", "/ping")))
  {
    var mux := BuildTestMux(matcher);
    index := ServeTestRequest(mux, matcher, Req("GET", "/"), 10);
    ghost var pooled := mux.pool;
    assert pooled == [mux.pool[0]] && fresh(pooled[0]);
    ping := ServeTestRequest(mux, matcher, Req("GET", "/ping"), 11);
    pingall := ServeTestRequest(mux, matcher, Req("GET", "/pingall"), 12);
    pingAll := ServeTestRequest(mux, matcher, Req("GET", "/ping/all"), 12);
    head := ServeTestRequest(mux, matcher, Req("HEAD", "/ping"), 13);
  }
}
