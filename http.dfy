/**
 * Stand-ins for the parts of net/http the router touches. Handlers and
 * middlewares are Go closures; here they are first-order values whose
 * behaviour is given by RouteMux.Run, and responses are outcome values
 * instead of writes to an http.ResponseWriter.
 */
module Http {
  import opened Wrappers

  /** url.Values: string keys, each with an ordered list of values. */
  type Values = map<string, seq<string>>

  /** The fields of an *http.Request that the router and its middlewares read. */
  datatype Request = Request(
    httpMethod: string,   // r.Method
    path: string,         // r.URL.Path (decoded)
    rawPath: string,      // r.URL.RawPath (encoded, often empty)
    contentType: string   // r.Header.Get("Content-Type")
  )

  /** A terminal http.Handler. */
  datatype Endpoint =
    | App(id: nat)              // an application handler; it answers with the RouteParams it sees
    | Crash(id: nat)            // an application handler that panics
    | SlashRedirect             // addSlashRedirect
    | DefaultNotFound           // http.NotFound
    | DefaultMethodNotAllowed   // methodNotAllowedHandler

  /** A func(http.Handler) http.Handler. */
  datatype Middleware =
    | Tap(id: nat)                           // does its work, calls next, then does its after-work
    | ContentTypeFilter(allowed: seq<string>) // the handler returned by AllowContentType

  /** A composed http.Handler: middlewares wrapped around an endpoint or the mux's routeHTTP. */
  datatype Handler =
    | Leaf(endpoint: Endpoint)
    | Wrap(middleware: Middleware, inner: Handler)
    | Dispatcher

  /** What reaches the client. */
  datatype Response =
    | Handled(id: nat, params: Option<Values>)
    | Panicked(id: nat)
    | Redirect301(location: string)
    | NotFound404
    | MethodNotAllowed405
    | UnsupportedMediaType415

  /** What a request observes on its way through the handler onion. */
  datatype Event = Before(tap: nat) | After(tap: nat) | Reached(endpoint: Endpoint)
}
