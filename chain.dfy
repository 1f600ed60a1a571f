/** Middleware composition of core/chain.go. */
module Chaining {
  import opened Http

  /** chain(ms, endpoint) = ms[0](ms[1](...ms[n-1](endpoint))): the first middleware is outermost. */
  function Chain(ms: seq<Middleware>, endpoint: Handler): Handler {
    if ms == [] then endpoint else Wrap(ms[0], Chain(ms[1..], endpoint))
  }

  /** With no middleware the endpoint itself is returned, unwrapped. */
  lemma ChainEmpty(endpoint: Handler)
    ensures Chain([], endpoint) == endpoint
  {
  }

  /** The middlewares wrapped around a handler, outermost first. */
  function Layers(h: Handler): seq<Middleware> {
    match h
    case Wrap(m, inner) => [m] + Layers(inner)
    case _ => []
  }

  /** The handler under all the wrapping. */
  function Core(h: Handler): Handler {
    match h
    case Wrap(_, inner) => Core(inner)
    case _ => h
  }

  /** Each middleware is applied exactly once, in list order from the outside in, around the endpoint. */
  lemma {:induction false} ChainLayers(ms: seq<Middleware>, endpoint: Handler)
    ensures Layers(Chain(ms, endpoint)) == ms + Layers(endpoint)
    ensures Core(Chain(ms, endpoint)) == Core(endpoint)
  {
    if ms != [] {
      ChainLayers(ms[1..], endpoint);
      assert ms == [ms[0]] + ms[1..];
    }
  }

  /** Chaining two lists in a row is chaining their concatenation. */
  lemma {:induction false} ChainAppend(ms: seq<Middleware>, ns: seq<Middleware>, endpoint: Handler)
    ensures Chain(ms + ns, endpoint) == Chain(ms, Chain(ns, endpoint))
  {
    if ms != [] {
      assert (ms + ns)[1..] == ms[1..] + ns;
      ChainAppend(ms[1..], ns, endpoint);
    } else {
      assert ms + ns == ns;
    }
  }

  /** The loop of core/chain.go: wrap from the last middleware down to the first. */
  method BuildChain(middlewares: seq<Middleware>, endpoint: Handler) returns (h: Handler)
    ensures h == Chain(middlewares, endpoint)
  {
    if |middlewares| == 0 {
      return endpoint;
    }
    var n := |middlewares|;
    h := Wrap(middlewares[n - 1], endpoint);
    assert middlewares[n - 1..][1..] == [];
    var i := n - 2;
    while i >= 0
      invariant -1 <= i <= n - 2
      invariant h == Chain(middlewares[i + 1..], endpoint)
    {
      assert middlewares[i..][1..] == middlewares[i + 1..];
      h := Wrap(middlewares[i], h);
      i := i - 1;
    }
  }
}
