/**
 * The route table of core/node.go: for each method flag, the ordered list of
 * (pattern, handler, redirect) entries, with duplicate suppression, the
 * synthetic trailing-slash redirect, and first-match lookup.
 */
module RouteTree {
  import opened Wrappers
  import opened Methods
  import opened Http
  import opened RouteContext

  /** A *patternHandler. */
  datatype Entry = Entry(pat: string, handler: Endpoint, redirect: bool)

  /** node.handlers. */
  type Table = map<MethodTyp, seq<Entry>>

  /**
   * patternHandler.try(path): the bound parameters, or None when the pattern
   * does not match. Its body is not part of this model, so the matcher is a parameter.
   */
  type Matcher = (string, string) -> Option<Values>

  /** n.handlers[m], with Go's nil slice for a missing key. */
  function ListOf(t: Table, m: MethodTyp): seq<Entry> {
    if m in t then t[m] else []
  }

  predicate HasPattern(es: seq<Entry>, p: string) {
    exists i :: 0 <= i < |es| && es[i].pat == p
  }

  predicate DistinctPatterns(es: seq<Entry>) {
    forall i, j :: 0 <= i < j < |es| ==> es[i].pat != es[j].pat
  }

  /** The invariant InsertRoute keeps: within one method, patterns are pairwise distinct. */
  predicate WellFormed(t: Table) {
    forall m :: m in t ==> DistinctPatterns(t[m])
  }

  predicate EndsWithSlash(p: string) {
    |p| > 0 && p[|p| - 1] == '/'
  }

  /** The table after InsertRoute(m, p, h, redirect). */
  function Insert(t: Table, m: MethodTyp, p: string, h: Endpoint, redirect: bool): Table
    decreases |p|
  {
    if HasPattern(ListOf(t, m), p) then t
    else
      var t1 := t[m := ListOf(t, m) + [Entry(p, h, redirect)]];
      if EndsWithSlash(p) then Insert(t1, m, p[..|p| - 1], SlashRedirect, true) else t1
  }

  /** Inserting a pattern already listed under m changes nothing at all. */
  lemma InsertDuplicate(t: Table, m: MethodTyp, p: string, h: Endpoint, redirect: bool)
    requires HasPattern(ListOf(t, m), p)
    ensures Insert(t, m, p, h, redirect) == t
  {
  }

  /** Insertion only appends to m's list: the earlier entries stay, in order, and m becomes a key. */
  lemma {:induction false} InsertExtends(t: Table, m: MethodTyp, p: string, h: Endpoint, redirect: bool)
    ensures m in Insert(t, m, p, h, redirect)
    ensures ListOf(t, m) <= ListOf(Insert(t, m, p, h, redirect), m)
    ensures HasPattern(ListOf(Insert(t, m, p, h, redirect), m), p)
    decreases |p|
  {
    var l := ListOf(t, m);
    if !HasPattern(l, p) {
      var t1 := t[m := l + [Entry(p, h, redirect)]];
      assert ListOf(t1, m)[|l|].pat == p;
      if EndsWithSlash(p) {
        InsertExtends(t1, m, p[..|p| - 1], SlashRedirect, true);
        var l2 := ListOf(Insert(t1, m, p[..|p| - 1], SlashRedirect, true), m);
        assert l2[|l|] == ListOf(t1, m)[|l|];
      }
    } else {
      assert l != [];
    }
  }

  /** A fresh pattern is appended as exactly one new entry right after the old list. */
  lemma InsertAppends(t: Table, m: MethodTyp, p: string, h: Endpoint, redirect: bool)
    requires !HasPattern(ListOf(t, m), p)
    ensures var after := ListOf(Insert(t, m, p, h, redirect), m);
      |after| > |ListOf(t, m)| && after[..|ListOf(t, m)| + 1] == ListOf(t, m) + [Entry(p, h, redirect)]
  {
    var t1 := t[m := ListOf(t, m) + [Entry(p, h, redirect)]];
    if EndsWithSlash(p) {
      InsertExtends(t1, m, p[..|p| - 1], SlashRedirect, true);
    }
  }

  /**
   * A fresh pattern ending in '/' also registers its trimmed form under the same
   * method; when the trimmed form was new too, it is a redirect entry right after.
   */
  lemma InsertTrailingSlash(t: Table, m: MethodTyp, p: string, h: Endpoint, redirect: bool)
    requires !HasPattern(ListOf(t, m), p) && EndsWithSlash(p)
    ensures var after := ListOf(Insert(t, m, p, h, redirect), m);
      && HasPattern(after, p[..|p| - 1])
      && (!HasPattern(ListOf(t, m), p[..|p| - 1]) ==>
            |after| > |ListOf(t, m)| + 1 && after[|ListOf(t, m)| + 1] == Entry(p[..|p| - 1], SlashRedirect, true))
  {
    var l := ListOf(t, m);
    var q := p[..|p| - 1];
    var t1 := t[m := l + [Entry(p, h, redirect)]];
    InsertExtends(t1, m, q, SlashRedirect, true);
    if !HasPattern(l, q) {
      InsertAppends(t1, m, q, SlashRedirect, true);
    }
  }

  /** InsertRoute(m, ...) leaves every other method's key and list as they were. */
  lemma {:induction false} InsertOtherMethods(t: Table, m: MethodTyp, p: string, h: Endpoint, redirect: bool, k: MethodTyp)
    requires k != m
    ensures k in Insert(t, m, p, h, redirect) <==> k in t
    ensures ListOf(Insert(t, m, p, h, redirect), k) == ListOf(t, k)
    decreases |p|
  {
    if !HasPattern(ListOf(t, m), p) {
      var t1 := t[m := ListOf(t, m) + [Entry(p, h, redirect)]];
      if EndsWithSlash(p) {
        InsertOtherMethods(t1, m, p[..|p| - 1], SlashRedirect, true, k);
      }
    }
  }

  /** Patterns within one method's list stay pairwise distinct. */
  lemma {:induction false} InsertKeepsDistinct(t: Table, m: MethodTyp, p: string, h: Endpoint, redirect: bool)
    requires DistinctPatterns(ListOf(t, m))
    ensures DistinctPatterns(ListOf(Insert(t, m, p, h, redirect), m))
    decreases |p|
  {
    var l := ListOf(t, m);
    if !HasPattern(l, p) {
      var l1 := l + [Entry(p, h, redirect)];
      var t1 := t[m := l1];
      assert DistinctPatterns(l1) by {
        forall i, j | 0 <= i < j < |l1| ensures l1[i].pat != l1[j].pat {
          if j == |l| {
            assert l[i].pat != p;
          }
        }
      }
      if EndsWithSlash(p) {
        InsertKeepsDistinct(t1, m, p[..|p| - 1], SlashRedirect, true);
      }
    }
  }

  /** The table invariant is preserved by InsertRoute. */
  lemma InsertKeepsWellFormed(t: Table, m: MethodTyp, p: string, h: Endpoint, redirect: bool)
    requires WellFormed(t)
    ensures WellFormed(Insert(t, m, p, h, redirect))
  {
    var t' := Insert(t, m, p, h, redirect);
    InsertKeepsDistinct(t, m, p, h, redirect);
    forall k | k in t'
      ensures DistinctPatterns(t'[k])
    {
      if k != m {
        InsertOtherMethods(t, m, p, h, redirect, k);
      }
    }
  }

  /** What m's list becomes depends on m's old list only. */
  lemma {:induction false} InsertLocal(t: Table, u: Table, m: MethodTyp, p: string, h: Endpoint, redirect: bool)
    requires ListOf(t, m) == ListOf(u, m)
    ensures ListOf(Insert(t, m, p, h, redirect), m) == ListOf(Insert(u, m, p, h, redirect), m)
    decreases |p|
  {
    var l := ListOf(t, m);
    if !HasPattern(l, p) {
      var t1 := t[m := l + [Entry(p, h, redirect)]];
      var u1 := u[m := l + [Entry(p, h, redirect)]];
      if EndsWithSlash(p) {
        InsertLocal(t1, u1, m, p[..|p| - 1], SlashRedirect, true);
      }
    }
  }

  /** Registering the same route twice is the same as registering it once. */
  lemma InsertIdempotent(t: Table, m: MethodTyp, p: string, h: Endpoint, redirect: bool)
    ensures Insert(Insert(t, m, p, h, redirect), m, p, h, redirect) == Insert(t, m, p, h, redirect)
  {
    InsertExtends(t, m, p, h, redirect);
  }

  /** Registration under each flag of fs in turn, last flag last. */
  function InsertAll(t: Table, fs: seq<MethodTyp>, p: string, h: Endpoint): Table
    decreases |fs|
  {
    if fs == [] then t
    else Insert(InsertAll(t, fs[..|fs| - 1], p, h), fs[|fs| - 1], p, h, false)
  }

  /** Registering under a list of flags acts on each listed flag as a single registration would. */
  lemma {:induction false} InsertAllLists(t: Table, fs: seq<MethodTyp>, p: string, h: Endpoint, k: MethodTyp)
    ensures k in InsertAll(t, fs, p, h) <==> k in t || k in fs
    ensures ListOf(InsertAll(t, fs, p, h), k) ==
            if k in fs then ListOf(Insert(t, k, p, h, false), k) else ListOf(t, k)
    decreases |fs|
  {
    if fs != [] {
      var init := fs[..|fs| - 1];
      var g := fs[|fs| - 1];
      assert fs == init + [g];
      var t' := InsertAll(t, init, p, h);
      InsertAllLists(t, init, p, h, k);
      InsertExtends(t', g, p, h, false);
      if k != g {
        InsertOtherMethods(t', g, p, h, false, k);
      } else if k in init {
        InsertLocal(t', Insert(t, k, p, h, false), k, p, h, false);
        InsertIdempotent(t, k, p, h, false);
      } else {
        InsertLocal(t', t, k, p, h, false);
      }
    }
  }

  /**
   * The first entry, in registration order, whose pattern matches the path,
   * with its index and the bound parameters.
   */
  function FirstMatch(es: seq<Entry>, path: string, try: Matcher): (r: Option<(nat, Values)>)
    ensures r.Some? ==>
      && r.value.0 < |es|
      && try(es[r.value.0].pat, path) == Some(r.value.1)
      && forall j :: 0 <= j < r.value.0 ==> try(es[j].pat, path).None?
    ensures r.None? ==> forall j :: 0 <= j < |es| ==> try(es[j].pat, path).None?
  {
    if es == [] then None
    else match try(es[0].pat, path)
      case Some(params) => Some((0, params))
      case None =>
        match FirstMatch(es[1..], path, try)
        case Some(found) => Some((found.0 + 1, found.1))
        case None => None
  }

  /** The effect of FindRoute(rctx, m, path): the context afterwards and the entry found. */
  function Find(t: Table, st: RouteState, m: MethodTyp, path: string, try: Matcher): (RouteState, Option<Entry>) {
    if m !in t then (st.(methodNotAllowed := true), None)
    else match FirstMatch(t[m], path, try)
      case Some(found) => (st.(routeParams := Some(found.1)), Some(t[m][found.0]))
      case None => (st, None)
  }

  /**
   * FindRoute's three outcomes: no key for m flags 405 and finds nothing; otherwise the
   * first matching entry is found and its params stored; and with no match, nothing is touched.
   */
  lemma FindOutcomes(t: Table, st: RouteState, m: MethodTyp, path: string, try: Matcher)
    ensures var (st', found) := Find(t, st, m, path, try);
      && (m !in t ==> found.None? && st' == st.(methodNotAllowed := true))
      && (m in t && found.None? ==> st' == st && forall j :: 0 <= j < |t[m]| ==> try(t[m][j].pat, path).None?)
      && (found.Some? ==>
            m in t &&
            exists i :: 0 <= i < |t[m]| && found.value == t[m][i]
              && try(t[m][i].pat, path).Some? && st' == st.(routeParams := try(t[m][i].pat, path))
              && forall j :: 0 <= j < i ==> try(t[m][j].pat, path).None?)
  {
    if m in t {
      var r := FirstMatch(t[m], path, try);
      if r.Some? {
        var i := r.value.0;
        assert 0 <= i < |t[m]| && Find(t, st, m, path, try).1.value == t[m][i];
      }
    }
  }

  /** A key with an empty list answers 404, not 405: FindRoute tests key presence, not emptiness. */
  lemma FindEmptyListIsNotFound(t: Table, st: RouteState, m: MethodTyp, path: string, try: Matcher)
    requires m in t && t[m] == []
    ensures Find(t, st, m, path, try) == (st, None)
  {
  }

  /** FindRoute looks at m's key and list only. */
  lemma FindIsLocal(t: Table, u: Table, st: RouteState, m: MethodTyp, path: string, try: Matcher)
    requires (m in t <==> m in u) && ListOf(t, m) == ListOf(u, m)
    ensures Find(t, st, m, path, try) == Find(u, st, m, path, try)
  {
  }

  class Node {
    var handlers: Table

    constructor ()
      ensures handlers == map[]
    {
      handlers := map[];
    }

    method InsertRoute(m: MethodTyp, pattern: string, handler: Endpoint, redirect: bool)
      modifies this
      ensures handlers == Insert(old(handlers), m, pattern, handler, redirect)
      decreases |pattern|
    {
      var hs := ListOf(handlers, m);
      var i := 0;
      while i < |hs|
        invariant 0 <= i <= |hs|
        invariant forall j :: 0 <= j < i ==> hs[j].pat != pattern
      {
        if hs[i].pat == pattern {
          return;
        }
        i := i + 1;
      }
      handlers := handlers[m := hs + [Entry(pattern, handler, redirect)]];
      var patLen := |pattern|;
      if patLen > 0 && pattern[patLen - 1] == '/' {
        InsertRoute(m, pattern[..patLen - 1], SlashRedirect, true);
      }
    }

    method FindRoute(rctx: Context, m: MethodTyp, path: string, try: Matcher) returns (found: Option<Entry>)
      modifies rctx
      ensures (rctx.State(), found) == Find(handlers, old(rctx.State()), m, path, try)
    {
      if m !in handlers {
        rctx.methodNotAllowed := true;
        return None;
      }
      var hs := handlers[m];
      var i := 0;
      while i < |hs|
        invariant 0 <= i <= |hs|
        invariant rctx.State() == old(rctx.State())
        invariant forall j :: 0 <= j < i ==> try(hs[j].pat, path).None?
      {
        var params := try(hs[i].pat, path);
        if params.Some? {
          rctx.routeParams := params;
          return Some(hs[i]);
        }
        i := i + 1;
      }
      found := None;
    }
  }
}
