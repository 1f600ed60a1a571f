/** The per-request routing context of core/context.go. */
module RouteContext {
  import opened Wrappers
  import opened Http

  /** The value of a Context's four fields. */
  datatype RouteState = RouteState(
    routePath: string,
    routeMethod: string,
    routeParams: Option<Values>,   // None is a nil url.Values
    methodNotAllowed: bool
  )

  /** The zero Context (&Context{}). */
  const Initial: RouteState := RouteState("", "", None, false)

  /** The effect of Reset: both overrides and the 405 hint are cleared, the params are kept. */
  function Cleared(s: RouteState): (r: RouteState)
    ensures r.routePath == "" && r.routeMethod == "" && !r.methodNotAllowed
    ensures r.routeParams == s.routeParams
  {
    s.(routePath := "", routeMethod := "", methodNotAllowed := false)
  }

  /** Reset is idempotent, and resetting the zero context leaves it zero. */
  lemma ClearedIdempotent(s: RouteState)
    ensures Cleared(Cleared(s)) == Cleared(s)
    ensures Cleared(Initial) == Initial
  {
  }

  /** The only thing that survives a Reset is RouteParams: two contexts reset alike iff their params agree. */
  lemma ClearedKeepsOnlyParams(s: RouteState, t: RouteState)
    ensures Cleared(s) == Cleared(t) <==> s.routeParams == t.routeParams
  {
    if s.routeParams == t.routeParams {
      assert Cleared(s) == RouteState("", "", s.routeParams, false);
    }
  }

  class Context {
    var routePath: string
    var routeMethod: string
    var routeParams: Option<Values>
    var methodNotAllowed: bool

    function State(): RouteState
      reads this
    {
      RouteState(routePath, routeMethod, routeParams, methodNotAllowed)
    }

    /** NewRouteContext. */
    constructor ()
      ensures State() == Initial
    {
      routePath := "";
      routeMethod := "";
      routeParams := None;
      methodNotAllowed := false;
    }

    method Reset()
      modifies this
      ensures State() == Cleared(old(State()))
    {
      routePath := "";
      routeMethod := "";
      methodNotAllowed := false;
    }
  }
}
