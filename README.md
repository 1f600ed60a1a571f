# A model of the router core

This project models the core of a small Go HTTP router written in the style of chi.

- `core/mux.go`: the `Mux` multiplexer. It is a configure-then-serve state machine:
  - `Use` stacks middlewares, but only while no route exists.
  - The first route builds the handler: the middleware chain around `routeHTTP`.
  - After that, `Use` panics.
  - `ServeHTTP` takes a routing context from a pool, resets it, serves the composed handler and puts the context back.
  - `routeHTTP` picks the routing path and method, looks the route up, and otherwise falls back to the 404 or 405 responder.
- `core/node.go`: the route table. It maps a method flag to its `patternHandler` list in registration order. It holds:
  - `InsertRoute`, which skips duplicates and adds a slash-redirect entry for patterns ending in `/`;
  - `FindRoute`, which returns the first matching entry and records the 405 flag when the method has no key;
  - `addSlashRedirect`, the 301 responder.
- `core/context.go`: the routing `Context` and its `Reset`.
- `core/chain.go`: `chain`, which wraps an endpoint in the middlewares, first one outermost.
- `core/method.go`: the nine method bit flags, the composite `mALL` and `methodMap`.
- `middlewares/content_type.go`: `AllowContentType`, the Content-Type whitelist that answers 415.

Modules follow the source files:

| module | file | content |
|---|---|---|
| `Methods` | `methods.dfy` | method flags and name lookup |
| `RouteContext` | `context.dfy` | the context class and its pure state |
| `Chaining` | `chain.dfy` | middleware composition |
| `RouteTree` | `node.dfy` | the `Node` class, proved against the pure `Insert` and `Find` |
| `ContentType` | `content_type.dfy` | the Content-Type filter |
| `RouteMux` | `mux.dfy` | the `Mux` class, proved against the pure `Route` and `Run` |
| `Segments` | `segments.dfy` | what the tests require of pattern matching, and one matcher that meets it |
| `MuxScenarios` | `mux_scenarios.dfy` | the scenarios of `core/mux_test.go` |
| `Http` | `http.dfy` | stand-ins for `net/http` values |
| `Wrappers` | `wrappers.dfy` | `Option` |

Handlers are values in the model:
- `Endpoint` is a route handler. `App(id)` answers normally, `Crash(id)` panics, and the rest are the built-in responders.
- `Middleware` is a tap with before- and after-work, or a Content-Type filter.
- `Handler` is an endpoint, a middleware wrapped around a handler, or the dispatcher `routeHTTP`.

Serving a handler yields the routing context's final state, the trace of events the request passed through, and the response.

Panics raised while configuring the mux are a `panicked` result with nothing changed. A mux that has no routes returns `NoRoutesPanic` from `ServeHTTP`.

## Model

| member | source | states |
|---|---|---|
| `Methods.ResolveName` | core/mux.go:95-99 | a name resolves iff its upper-cased form is a key of methodMap; the result is one of the nine single-bit flags, never mALL |
| `Methods.FlagsAreShiftedBits` | core/method.go:7-17 | the nine flags are 1<<0 … 1<<8 in the declared order |
| `Methods.FlagsAreDisjointBits` | core/method.go:7-17 | each flag is a single bit and any two flags share no bit |
| `Methods.AllIsUnionOfFlags` | core/method.go:19-20 | mALL is 511, contains every flag and differs from each |
| `Methods.MethodMapPairs` | core/method.go:22-32 | methodMap maps exactly the nine upper-case names to the nine flags, pairwise |
| `Methods.MethodMapIsInjective` | core/method.go:22-32 | distinct names map to distinct flags; every flag is a value and mALL is not |
| `Methods.MethodMapKeysUpperCase` | core/method.go:22-32 | every key is already upper case |
| `Methods.LookupIsCaseSensitive` | core/method.go:22-32 | "get" is not a key but Method accepts "get" and "Get" as GET; "FETCH" is unknown |
| `Methods.ResolveNameAgreesWithMap` | core/mux.go:96 | for a key of methodMap, Method's resolution equals the direct lookup |
| `Methods.UpperChar` | core/mux.go:96 | a-z go to A-Z, the long s U+017F to 'S', the dotless i U+0131 to 'I'; every other character is kept |
| `Methods.NonAsciiFolding` | core/mux.go:96 | Method accepts "po\u017Ft" as POST and "opt\u0131ons" as OPTIONS, as Go's upper-casing does |
| `RouteContext.Cleared` | core/context.go:38-43 | Reset's effect: path, method and 405 flag cleared, RouteParams kept |
| `RouteContext.ClearedIdempotent` | core/context.go:38-43 | resetting twice equals resetting once; a new context is already reset |
| `RouteContext.ClearedKeepsOnlyParams` | core/context.go:38-43 | two contexts agree after Reset iff their RouteParams agree |
| `RouteContext.Context.constructor` | core/context.go:27-29 | NewRouteContext gives the zero state |
| `RouteContext.Context.Reset` | core/context.go:38-43 | the new state is Cleared of the old one |
| `Chaining.ChainEmpty` | core/chain.go:9-11 | with no middlewares the endpoint itself is returned |
| `Chaining.ChainLayers` | core/chain.go:7-20 | the chain wraps each middleware exactly once, first one outermost, around the endpoint |
| `Chaining.ChainAppend` | core/chain.go:7-20 | chaining ms + ns equals chaining ms around the chain of ns |
| `Chaining.BuildChain` | core/chain.go:14-17 | the descending loop builds exactly the chain |
| `RouteTree.InsertDuplicate` | core/node.go:14-19 | a pattern already present under the method leaves the table unchanged |
| `RouteTree.InsertExtends` | core/node.go:13-32 | after insertion the method has a key, its old list is a prefix of the new one and the pattern is present |
| `RouteTree.InsertAppends` | core/node.go:21-26 | a new pattern is appended right after the old list |
| `RouteTree.InsertTrailingSlash` | core/node.go:28-31 | a new pattern ending in '/' also registers its trimmed form, as a redirect entry right after it when that form is new |
| `RouteTree.InsertOtherMethods` | core/node.go:13-32 | other methods' keys and lists are untouched |
| `RouteTree.InsertKeepsDistinct` | core/node.go:14-19 | patterns stay distinct within a method's list |
| `RouteTree.InsertKeepsWellFormed` | core/node.go:13-32 | a table with distinct patterns per method keeps them |
| `RouteTree.InsertLocal` | core/node.go:13-32 | the new list depends only on the method's old list |
| `RouteTree.InsertIdempotent` | core/node.go:14-19 | registering the same route twice equals registering it once |
| `RouteTree.InsertAllLists` | core/node.go:13-32 | registering under a list of flags acts on each listed flag as one registration and leaves the others alone |
| `RouteTree.FirstMatch` | core/node.go:41-46 | the index returned matches and every earlier entry does not; no result means no entry matches |
| `RouteTree.FindOutcomes` | core/node.go:35-49 | no key: 405 flag set, nothing found; otherwise the first matching entry is returned and its params stored; no match: context untouched |
| `RouteTree.FindEmptyListIsNotFound` | core/node.go:36-39 | a key with an empty list finds nothing and does not set the 405 flag |
| `RouteTree.FindIsLocal` | core/node.go:35-49 | lookup depends only on the method's key and list |
| `RouteTree.Node.constructor` | core/mux.go:39 | the tree starts with an empty table |
| `RouteTree.Node.InsertRoute` | core/node.go:13-32 | the new table is Insert of the old one |
| `RouteTree.Node.FindRoute` | core/node.go:35-49 | the entry found and the context's new state are those of Find |
| `ContentType.LowerChar` | middlewares/content_type.go:13 | upper-case ASCII letters become their lower-case letter (code point + 32), other characters are kept |
| `ContentType.ToLower` | middlewares/content_type.go:13 | same length, each character lowered |
| `ContentType.TrimLeft` | middlewares/content_type.go:18 | a suffix of the input; everything dropped is white space; it does not start with white space |
| `ContentType.TrimRight` | middlewares/content_type.go:18 | a prefix of the input; everything dropped is white space; it does not end with white space |
| `ContentType.CutParameters` | middlewares/content_type.go:24-26 | a prefix without ';'; when shorter, the input continues with ';' |
| `ContentType.AllowContentType` | middlewares/content_type.go:11-14 | the filter keeps the allowed types lowered, one for one and in order |
| `ContentType.CheckRequest` | middlewares/content_type.go:17-35 | the request passes iff the normalised header is blank or its media type is on the list |
| `ContentType.Listed` | middlewares/content_type.go:28-33 | the scan answers true iff the media type is on the list |
| `ContentType.BlankHeaderAdmitted` | middlewares/content_type.go:19-22 | a missing or all-white-space header always passes |
| `ContentType.TrimSpaceLower` | middlewares/content_type.go:18 | trimming and lowering commute |
| `ContentType.LowerIdempotent` | middlewares/content_type.go:13 | lowering twice equals lowering once |
| `ContentType.AdmitsIgnoresCase` | middlewares/content_type.go:18 | headers equal up to letter case are judged alike |
| `ContentType.CutAfter` | middlewares/content_type.go:24-26 | everything from the first ';' on is dropped |
| `ContentType.NormalizeWithParameters` | middlewares/content_type.go:18 | normalising "t;params" trims only the outer white space |
| `ContentType.ParametersIgnored` | middlewares/content_type.go:24-33 | "t;params" passes exactly when "t" does |
| `ContentType.SpaceBeforeParametersKept` | middlewares/content_type.go:24-33 | "t ;params" passes only if "t " itself, space included, is on the list, since nothing is trimmed after the cut |
| `ContentType.AllowedTypeAdmitted` | middlewares/content_type.go:10-33 | a header naming an allowed type, in any letter case, passes the constructed filter |
| `RouteMux.ResponderDefaults` | core/mux.go:242-265 | without a custom responder a miss answers 404 and an unroutable method 405; with one, the custom responder is served |
| `RouteMux.SlashRedirectTarget` | core/node.go:51-55 | the redirect answers 301 to the request path with '/' appended |
| `RouteMux.RouteOutcomes` | core/mux.go:202-238 | every outcome of routeHTTP: the method is written back, unknown names and missing keys reach the 405 responder, a match serves its entry, no match reaches 405 or 404 by the flag |
| `RouteMux.UnknownMethodSkipsTable` | core/mux.go:221-225 | a name outside methodMap never reaches the table |
| `RouteMux.CompositeKeyNeverRoutes` | core/mux.go:83-85 | a registration under mALL changes no routing decision |
| `RouteMux.HandleOnlyAnswers405` | core/mux.go:83-85 | a mux whose only route came from Handle answers every request with the 405 responder |
| `RouteMux.HandleRoutesEveryMethod` | core/mux.go:81-85 | registering under all nine flags serves the handler for every method name when no earlier route matched |
| `RouteMux.StaleParamsReachNotFound` | core/context.go:38-43 | a reset context that matches nothing shows the previous request's RouteParams to a custom not-found handler |
| `RouteMux.Onion` | core/chain.go:7-20 | through a stack of taps, all before-work runs in order before the inner handler and all after-work in reverse after it, unless it panicked |
| `RouteMux.FilterRejectionSkipsNext` | middlewares/content_type.go:35 | a rejected Content-Type answers 415 and the next handler is never reached |
| `RouteMux.FilterAdmissionIsTransparent` | middlewares/content_type.go:19-33 | an admitted request is served exactly as without the filter |
| `RouteMux.FilterInChain` | middlewares/content_type.go:35 | a rejecting filter behind taps: only those taps run, nothing after the filter is reached, 415 |
| `RouteMux.Built` | core/mux.go:185-187 | the handler is built on the first registration and kept afterwards |
| `RouteMux.Mux.constructor` | core/mux.go:37-46 | NewMux: empty table, stack and pool, no handler, default responders |
| `RouteMux.Mux.Use` | core/mux.go:74-79 | panics iff a route exists, then changes nothing; otherwise appends to the stack |
| `RouteMux.Mux.BuildRouteHandler` | core/mux.go:196-198 | the handler is the chain of the current stack around routeHTTP |
| `RouteMux.Mux.Register` | core/mux.go:179-190 | panics iff the pattern does not start with '/'; otherwise builds the handler once and inserts the route |
| `RouteMux.Mux.HandleUnderAllKey` | core/mux.go:83-85 | Handle as written: one registration under mALL |
| `RouteMux.Mux.Handle` | core/mux.go:81-85 | Handle as documented: the route registered under each of the nine flags |
| `RouteMux.Mux.Method` | core/mux.go:95-101 | an unknown name panics and changes nothing; a known one registers under its flag |
| `RouteMux.Mux.Connect` | core/mux.go:111-113 | registers under CONNECT; the mux invariant is kept |
| `RouteMux.Mux.Delete` | core/mux.go:117-119 | registers under DELETE; the mux invariant is kept |
| `RouteMux.Mux.Get` | core/mux.go:123-125 | registers under GET; the mux invariant is kept |
| `RouteMux.Mux.Head` | core/mux.go:129-131 | registers under HEAD; the mux invariant is kept |
| `RouteMux.Mux.Options` | core/mux.go:135-137 | registers under OPTIONS; the mux invariant is kept |
| `RouteMux.Mux.Patch` | core/mux.go:141-143 | registers under PATCH; the mux invariant is kept |
| `RouteMux.Mux.Post` | core/mux.go:147-149 | registers under POST; the mux invariant is kept |
| `RouteMux.Mux.Put` | core/mux.go:153-155 | registers under PUT; the mux invariant is kept |
| `RouteMux.Mux.Trace` | core/mux.go:159-161 | registers under TRACE; the mux invariant is kept |
| `RouteMux.Mux.NotFound` | core/mux.go:165-168 | sets the not-found responder only; the mux invariant is kept |
| `RouteMux.Mux.MethodNotAllowed` | core/mux.go:172-175 | sets the 405 responder only; the mux invariant is kept |
| `RouteMux.Mux.NotFoundHandler` | core/mux.go:242-247 | the custom responder if set, else http.NotFound |
| `RouteMux.Mux.MethodNotAllowedHandler` | core/mux.go:251-256 | the custom responder if set, else the bare 405 |
| `RouteMux.Mux.RouteHTTP` | core/mux.go:202-238 | the endpoint served and the context's new state are those of Route |
| `RouteMux.Mux.Execute` | core/mux.go:64 | serving the composed handler yields exactly Run's outcome |
| `RouteMux.Mux.PoolGet` | core/mux.go:61 | a pooled context if there is one, else a new context in the zero state |
| `RouteMux.Mux.PoolPut` | core/mux.go:65 | the context is returned to the pool |
| `RouteMux.Mux.ServeHTTP` | core/mux.go:51-66 | panics without routes; otherwise serves Run on a reset context; the context goes back to the pool unless the handler panicked; only the context object taken (the last pooled one) may change; every other context object keeps its state |
| `Segments.SegmentMatchMeetsEvidence` | core/mux_test.go:15-220 | the segment matcher agrees with every pattern/path answer the tests observe |
| `MuxScenarios.EmptyRoutes` | core/mux_test.go:157-169 | serving a mux without routes panics |
| `MuxScenarios.PanicOnLateUse` | core/mux_test.go:222-243 | Use after a route panics and leaves the stack empty |
| `MuxScenarios.PlainRouting` | core/mux_test.go:134-155 | routing of the plain mux: /hi found, /nothing-here to the custom 404 |
| `MuxScenarios.Plain` | core/mux_test.go:134-155 | /hi answers hi; an unknown path reaches the custom 404 |
| `MuxScenarios.RootRouting` | core/mux_test.go:171-192 | GET /root found; PUT /root flags 405 |
| `MuxScenarios.NestedMethodNotAllowed` | core/mux_test.go:171-192 | GET /root answers root; PUT /root reaches the custom 405 |
| `MuxScenarios.NamedParamRouting` | core/mux_test.go:194-220 | /hi/daniel binds name; /hi reaches the 404 |
| `MuxScenarios.WithMatchPath` | core/mux_test.go:194-220 | /hi/daniel is served with name=daniel; /hi reaches the custom 404 |
| `MuxScenarios.HandleAsWritten` | core/mux.go:83-85 | a GET to a pattern registered with Handle answers 405 |
| `MuxScenarios.HandleAsIntended` | core/mux.go:81-85 | with the corrected Handle the same GET is served by the handler |
| `MuxScenarios.PanicLeaksContext` | core/mux.go:61-65 | after a panicking handler the pool is left without the context |
| `MuxScenarios.MuxRoutesIndex` | core/mux_test.go:15-132 | GET / reaches the index handler with its params, whatever the pooled context held |
| `MuxScenarios.MuxRoutesPing` | core/mux_test.go:15-132 | GET /ping passes over "/" and its redirect and reaches the ping handler |
| `MuxScenarios.MuxRoutesPingall` | core/mux_test.go:15-132 | GET /pingall passes over "/", its redirect and "/ping" and reaches the ping-all handler |
| `MuxScenarios.MuxRoutesPingAll` | core/mux_test.go:15-132 | GET /ping/all passes over the four earlier GET routes and reaches its own handler |
| `MuxScenarios.MuxRoutesHead` | core/mux_test.go:15-132 | HEAD /ping is routed through HEAD's own list |
| `MuxScenarios.MuxOnion` | core/mux_test.go:15-132 | the four middlewares run before and after the routed handler |
| `MuxScenarios.BuildTestMux` | core/mux_test.go:15-132 | the configured mux has the expected table and handler |
| `MuxScenarios.MuxServes` | core/mux_test.go:15-132 | each of the five requests passes through all four middlewares, in Use order, around the handler it reaches |
| `MuxScenarios.MuxMiddlewaresAndMethods` | core/mux_test.go:15-132 | GET /, GET /ping, GET /pingall, GET /ping/all and HEAD /ping, served in that order on one mux, each give the full trace Before(1..4), its handler, After(4..1) and that handler's response |

## Left out

- `Methods.ToUpper`: keeps every character other than a-z, U+017F and U+0131. Go's `strings.ToUpper` maps further characters, but only to characters outside ASCII, so no methodMap lookup depends on the difference.
- `ContentType.ToLower`: lowers ASCII letters only. Go's `strings.ToLower` maps all of Unicode, so a header and an allowed type that differ only in the case of a non-ASCII letter (or in the Kelvin sign U+212A against 'k') are admitted by Go and refused here.
- `ContentType.TrimLeft`: white space is the set of characters Go's `unicode.IsSpace` accepts. `TrimRight` uses the same set.
- `patternHandler.try` is not part of this model. The table takes the matcher as a parameter.
  - `Segments.TestEvidence` states what the tests observe of it.
  - `Segments.SegmentMatch` is one matcher that satisfies those observations.
- The `sync.Pool` is a last-in first-out free list. Its concurrency and its freedom to drop entries are not modelled.
- `context.WithValue`: the context is passed to the handlers directly.
- `ResponseWriter` output is not modelled. Responses are values; headers and body bytes are left out.
- A handler's own work is abstracted:
  - a tap records events before and after its inner handler;
  - an endpoint answers with its identity and the params it sees.
- `HandleFunc` and `MethodFunc` differ from `Handle` and `Method` only in the handler's Go type. `Mux.Handle` and `Mux.Method` stand for them.
- A nil `http.Handler` passed to a route is not modelled: endpoints are always values.
- The recover and logger middlewares, `core/router.go` and the server and library packages are not part of this model.
- `RouteMux.Mux.ServeHTTP`: after a panic the model stops. It does not model the panic unwinding into `net/http`'s own recovery.

## Findings

| source | as written | input that shows it | evidently intended | confidence | as-written member | corrected member |
|---|---|---|---|---|---|---|
| core/mux.go:83-91 | `Handle` and `HandleFunc` register under the composite key `mALL` (core/method.go:19-20). `routeHTTP` looks up only single flags from `methodMap`, so the route is never found. | `Handle("/x", h)` followed by `GET /x`: the method has no key, so the request answers 405 | the doc comment says "matches any http method", so the route should be registered under each of the nine method flags | high, proved on the model, not executed | `RouteMux.Mux.HandleUnderAllKey`, `RouteMux.CompositeKeyNeverRoutes` | `RouteMux.Mux.Handle`, `RouteMux.HandleRoutesEveryMethod` |
