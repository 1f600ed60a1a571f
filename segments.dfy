/**
 * patternHandler.try is not part of this model: the router only ever asks a
 * pattern whether it matches a path and, if so, for the bound parameters.
 * TestEvidence states what core/mux_test.go requires of that answer, and
 * SegmentMatch, a segment-by-segment matcher with ":name" wildcards, shows
 * that the requirement can be met.
 */
module Segments {
  import opened Wrappers
  import opened Http

  /** strings.Split(s, "/"): the pieces between the slashes, empty ones included. */
  function Split(s: string): (r: seq<string>)
    ensures |r| >= 1
    decreases |s|
  {
    if s == [] then [""]
    else if s[0] == '/' then [""] + Split(s[1..])
    else
      var rest := Split(s[1..]);
      [[s[0]] + rest[0]] + rest[1..]
  }

  /** A pattern segment ":name" binds a whole, non-empty path segment to name. */
  predicate IsWildcard(seg: string) {
    |seg| > 1 && seg[0] == ':'
  }

  /** Matches pattern segments against path segments one by one, collecting the bindings in acc. */
  function MatchSegments(ps: seq<string>, xs: seq<string>, acc: Values): (r: Option<Values>)
    ensures r.Some? ==> |ps| == |xs| && acc.Keys <= r.value.Keys
    decreases |ps|
  {
    if |ps| != |xs| then None
    else if ps == [] then Some(acc)
    else if IsWildcard(ps[0]) then
      if xs[0] == "" then None else MatchSegments(ps[1..], xs[1..], acc[ps[0][1..] := [xs[0]]])
    else if ps[0] == xs[0] then MatchSegments(ps[1..], xs[1..], acc)
    else None
  }

  function SegmentMatch(pattern: string, path: string): Option<Values> {
    MatchSegments(Split(pattern), Split(path), map[])
  }

  /** A pattern without wildcards matches exactly its own text, binding nothing. */
  lemma {:induction false} LiteralSegments(ps: seq<string>, xs: seq<string>, acc: Values)
    requires forall i :: 0 <= i < |ps| ==> !IsWildcard(ps[i])
    ensures MatchSegments(ps, xs, acc) == if ps == xs then Some(acc) else None
    decreases |ps|
  {
    if |ps| == |xs| && ps != [] {
      LiteralSegments(ps[1..], xs[1..], acc);
      if ps[0] == xs[0] && ps[1..] == xs[1..] {
        assert ps == [ps[0]] + ps[1..] && xs == [xs[0]] + xs[1..];
      }
    }
  }

  /** What core/mux_test.go observes of patternHandler.try, on the routes and paths it uses. */
  predicate TestEvidence(try: (string, string) -> Option<Values>) {
    // TestMuxWithMatchPath
    && try("/hi/:name", "/hi/daniel") == Some(map["name" := ["daniel"]])
    && try("/hi/:name", "/hi").None?
    // TestMuxPlain
    && try("/hi", "/hi").Some?
    && try("/hi", "/nothing-here").None?
    // TestMuxNestedMethodNotAllowed
    && try("/root", "/root").Some?
    // TestMux: GET /, GET /ping, GET /pingall, GET /ping/all and HEAD /ping, each tried
    // against the GET routes "/", its redirect "", "/ping", "/pingall" and "/ping/all" in order
    && try("/", "/").Some?
    && try("/", "/ping").None? && try("", "/ping").None?
    && try("/ping", "/ping").Some?
    && try("/", "/pingall").None? && try("", "/pingall").None?
    && try("/ping", "/pingall").None? && try("/pingall", "/pingall").Some?
    && try("/", "/ping/all").None? && try("", "/ping/all").None?
    && try("/ping", "/ping/all").None? && try("/pingall", "/ping/all").None?
    && try("/ping/all", "/ping/all").Some?
  }

  /** A piece without '/' is split off whole. */
  lemma {:induction false} SplitPiece(w: string, rest: string)
    requires '/' !in w
    ensures Split(w) == [w]
    ensures Split(w + "/" + rest) == [w] + Split(rest)
    decreases |w|
  {
    if w == [] {
      assert w + "/" + rest == "/" + rest;
      assert ("/" + rest)[1..] == rest;
    } else {
      SplitPiece(w[1..], rest);
      assert (w + "/" + rest)[1..] == w[1..] + "/" + rest;
      assert [w[0]] + w[1..] == w;
    }
  }

  /** Split("/a") and Split("/a/b") for slash-free a and b. */
  lemma SplitRooted(a: string, b: string)
    requires '/' !in a && '/' !in b
    ensures Split("/" + a) == ["", a]
    ensures Split("/" + a + "/" + b) == ["", a, b]
  {
    SplitPiece(a, "");
    assert ("/" + a)[1..] == a;
    SplitPiece(a, b);
    SplitPiece(b, "");
    assert ("/" + a + "/" + b)[1..] == a + "/" + b;
  }

  /** "/a" against "/b", for literal segments. */
  lemma MatchRooted(a: string, b: string)
    requires '/' !in a && '/' !in b && !IsWildcard(a)
    ensures SegmentMatch("/" + a, "/" + b) == if a == b then Some(map[]) else None
  {
    SplitRooted(a, "");
    SplitRooted(b, "");
    LiteralSegments(["", a], ["", b], map[]);
  }

  /** "/a/b" against "/c/d", for literal segments. */
  lemma MatchRooted2(a: string, b: string, c: string, d: string)
    requires '/' !in a && '/' !in b && '/' !in c && '/' !in d && !IsWildcard(a) && !IsWildcard(b)
    ensures SegmentMatch("/" + a + "/" + b, "/" + c + "/" + d) == if a == c && b == d then Some(map[]) else None
  {
    SplitRooted(a, b);
    SplitRooted(c, d);
    LiteralSegments(["", a, b], ["", c, d], map[]);
  }

  /** "/a/:name" against "/a/b" binds name to b when b is not empty. */
  lemma MatchWildcard(a: string, name: string, b: string)
    requires '/' !in a && '/' !in name && '/' !in b && !IsWildcard(a) && name != "" && b != ""
    ensures SegmentMatch("/" + a + "/:" + name, "/" + a + "/" + b) == Some(map[name := [b]])
  {
    assert "/" + a + "/:" + name == "/" + a + "/" + (":" + name);
    SplitRooted(a, ":" + name);
    SplitRooted(a, b);
    var w := ":" + name;
    assert IsWildcard(w) && w[1..] == name;
    var ps := ["", a, w];
    var xs := ["", a, b];
    assert ps[1..] == [a, w] && xs[1..] == [a, b];
    assert [a, w][1..] == [w] && [a, b][1..] == [b];
    assert MatchSegments([w], [b], map[]) == MatchSegments([], [], map[name := [b]]);
    assert MatchSegments(ps, xs, map[]) == MatchSegments([w], [b], map[]);
  }

  /** "/a/:name" never matches the shorter "/a". */
  lemma WildcardNeedsSegment(a: string, name: string)
    requires '/' !in a && '/' !in name
    ensures SegmentMatch("/" + a + "/:" + name, "/" + a).None?
  {
    assert "/" + a + "/:" + name == "/" + a + "/" + (":" + name);
    SplitRooted(a, ":" + name);
    SplitRooted(a, "");
  }

  lemma WildcardSample()
    ensures SegmentMatch("/hi/:name", "/hi/daniel") == Some(map["name" := ["daniel"]])
    ensures SegmentMatch("/hi/:name", "/hi").None?
  {
    MatchWildcard("hi", "name", "daniel");
    WildcardNeedsSegment("hi", "name");
    assert "/" + "hi" + "/:" + "name" == "/hi/:name";
    assert "/" + "hi" + "/" + "daniel" == "/hi/daniel";
    assert "/" + "hi" == "/hi";
  }

  lemma HiSample()
    ensures SegmentMatch("/hi", "/hi").Some?
  {
    MatchRooted("hi", "hi");
    assert "/" + "hi" == "/hi";
  }

  lemma NothingHereSample()
    ensures SegmentMatch("/hi", "/nothing-here").None?
  {
    MatchRooted("hi", "nothing-here");
    assert "/" + "hi" == "/hi" && "/" + "nothing-here" == "/nothing-here";
  }

  lemma RootAndPingSamples()
    ensures SegmentMatch("/root", "/root").Some? && SegmentMatch("/ping", "/ping").Some?
  {
    MatchRooted("root", "root");
    MatchRooted("ping", "ping");
    assert "/" + "root" == "/root" && "/" + "ping" == "/ping";
  }

  /** The root pattern and its redirect form "" against "/" and "/ping/all". */
  lemma RootSamples()
    ensures SegmentMatch("/", "/").Some?
    ensures SegmentMatch("/", "/ping/all").None? && SegmentMatch("", "/ping/all").None?
  {
    MatchRooted("", "");
    assert "/" + "" == "/";
    SplitRooted("ping", "all");
    assert "/" + "ping" + "/" + "all" == "/ping/all";
    SplitRooted("", "");
    SplitPiece("", "");
  }

  /** "/a" has two pieces and "/b/c" three, so they never match. */
  lemma RootedAgainstTwo(a: string, b: string, c: string)
    requires '/' !in a && '/' !in b && '/' !in c
    ensures SegmentMatch("/" + a, "/" + b + "/" + c).None?
  {
    SplitRooted(a, "");
    SplitRooted(b, c);
  }

  lemma PingPrefixSamples()
    ensures SegmentMatch("/ping", "/ping/all").None? && SegmentMatch("/pingall", "/ping/all").None?
  {
    RootedAgainstTwo("ping", "ping", "all");
    RootedAgainstTwo("pingall", "ping", "all");
    assert "/" + "ping" + "/" + "all" == "/ping/all";
    assert "/" + "ping" == "/ping" && "/" + "pingall" == "/pingall";
  }

  /** "/ping" and "/pingall" against the root routes and each other. */
  lemma PingSamples()
    ensures SegmentMatch("/", "/ping").None? && SegmentMatch("", "/ping").None?
    ensures SegmentMatch("/", "/pingall").None? && SegmentMatch("", "/pingall").None?
    ensures SegmentMatch("/ping", "/pingall").None? && SegmentMatch("/pingall", "/pingall").Some?
  {
    MatchRooted("", "ping");
    MatchRooted("", "pingall");
    MatchRooted("ping", "pingall");
    MatchRooted("pingall", "pingall");
    assert "/" + "" == "/" && "/" + "ping" == "/ping" && "/" + "pingall" == "/pingall";
    SplitPiece("", "");
  }

  lemma PingAllSample()
    ensures SegmentMatch("/ping/all", "/ping/all").Some?
  {
    MatchRooted2("ping", "all", "ping", "all");
    assert "/" + "ping" + "/" + "all" == "/ping/all";
  }

  /** The segment matcher meets the test evidence, so the evidence is consistent. */
  lemma SegmentMatchMeetsEvidence()
    ensures TestEvidence(SegmentMatch)
  {
    WildcardSample();
    HiSample();
    NothingHereSample();
    RootAndPingSamples();
    RootSamples();
    PingPrefixSamples();
    PingSamples();
    PingAllSample();
  }
}
