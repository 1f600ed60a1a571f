/**
 * The Content-Type whitelist of middlewares/content_type.go: the allowed
 * list is lower-cased once when the middleware is made; each request's
 * header is trimmed, lower-cased and cut at the first ';' (the media type
 * without its parameters, section 8.3.1 of RFC 9110), then compared exactly.
 */
module ContentType {
  import opened Http

  /** The white space of unicode.IsSpace outside the U+2000..U+200A block. */
  const SpaceChars: set<char> := {
    ' ', '\t', '\n', '\U{B}', '\U{C}', '\r', '\U{85}', '\U{A0}', '\U{1680}',
    '\U{2028}', '\U{2029}', '\U{202F}', '\U{205F}', '\U{3000}'
  }

  /** unicode.IsSpace, which strings.TrimSpace uses. */
  predicate IsSpace(c: char) {
    c in SpaceChars || '\U{2000}' <= c <= '\U{200A}'
  }

  function LowerChar(c: char): (l: char)
    ensures 'A' <= c <= 'Z' ==> l as int == c as int + 32
    ensures !('A' <= c <= 'Z') ==> l == c
  {
    if 'A' <= c <= 'Z' then (c as int + 32) as char else c
  }

  /** strings.ToLower, restricted to ASCII letters. */
  function ToLower(s: string): (r: string)
    ensures |r| == |s|
    ensures forall i :: 0 <= i < |s| ==> r[i] == LowerChar(s[i])
  {
    seq(|s|, i requires 0 <= i < |s| => LowerChar(s[i]))
  }

  /** Drops the leading white space. */
  function TrimLeft(s: string): (r: string)
    ensures |r| <= |s| && r == s[|s| - |r|..]
    ensures forall i :: 0 <= i < |s| - |r| ==> IsSpace(s[i])
    ensures r == [] || !IsSpace(r[0])
  {
    if s != [] && IsSpace(s[0]) then TrimLeft(s[1..]) else s
  }

  /** Drops the trailing white space. */
  function TrimRight(s: string): (r: string)
    ensures |r| <= |s| && r == s[..|r|]
    ensures forall i :: |r| <= i < |s| ==> IsSpace(s[i])
    ensures r == [] || !IsSpace(r[|r| - 1])
  {
    if s != [] && IsSpace(s[|s| - 1]) then TrimRight(s[..|s| - 1]) else s
  }

  /** strings.TrimSpace. */
  function TrimSpace(s: string): string {
    TrimRight(TrimLeft(s))
  }

  /** s[0:i] for the first ';' at i, or s when there is none. */
  function CutParameters(s: string): (r: string)
    ensures r <= s
    ensures ';' !in r
    ensures |r| < |s| ==> s[|r|] == ';'
  {
    if s == [] then []
    else if s[0] == ';' then []
    else [s[0]] + CutParameters(s[1..])
  }

  /** The per-request decision: true when the request goes on to `next`, false for a 415. */
  predicate Admits(allowed: seq<string>, header: string) {
    var s := Normalize(header);
    |s| == 0 || CutParameters(s) in allowed
  }

  /** The header as compared: trimmed and lower-cased, parameters still attached. */
  function Normalize(header: string): string {
    ToLower(TrimSpace(header))
  }

  /** The constructor's loop: each allowed type lower-cased once, in order. */
  method AllowContentType(contentTypes: seq<string>) returns (mw: Middleware)
    ensures mw.ContentTypeFilter?
    ensures |mw.allowed| == |contentTypes|
    ensures forall i :: 0 <= i < |contentTypes| ==> mw.allowed[i] == ToLower(contentTypes[i])
  {
    var cT: seq<string> := [];
    for i := 0 to |contentTypes|
      invariant |cT| == i
      invariant forall j :: 0 <= j < i ==> cT[j] == ToLower(contentTypes[j])
    {
      cT := cT + [ToLower(contentTypes[i])];
    }
    mw := ContentTypeFilter(cT);
  }

  /**
   * The handler's per-request test: normalise the header, pass a blank one,
   * cut the parameters, then scan the allowed list for an exact match.
   */
  method CheckRequest(cT: seq<string>, header: string) returns (pass: bool)
    ensures pass == Admits(cT, header)
  {
    var s := Normalize(header);
    if |s| == 0 {
      return true;
    }
    pass := Listed(cT, CutParameters(s));
  }

  /** The scan over the allowed list: an exact match anywhere in it. */
  method Listed(cT: seq<string>, media: string) returns (found: bool)
    ensures found <==> media in cT
  {
    for i := 0 to |cT|
      invariant media !in cT[..i]
    {
      if cT[i] == media {
        return true;
      }
    }
    assert cT[..|cT|] == cT;
    return false;
  }

  /** A header that is empty or all white space always passes. */
  lemma BlankHeaderAdmitted(allowed: seq<string>, header: string)
    requires forall i :: 0 <= i < |header| ==> IsSpace(header[i])
    ensures Admits(allowed, header)
  {
  }

  lemma LowerKeepsSpace(c: char)
    ensures IsSpace(LowerChar(c)) == IsSpace(c)
  {
  }

  lemma LowerConcat(a: string, b: string)
    ensures ToLower(a + b) == ToLower(a) + ToLower(b)
  {
  }

  lemma LowerKeepsSemicolons(s: string)
    ensures ';' in ToLower(s) <==> ';' in s
  {
    if ';' in ToLower(s) {
      var k :| 0 <= k < |s| && ToLower(s)[k] == ';';
      assert s[k] == ';';
    }
    if ';' in s {
      var k :| 0 <= k < |s| && s[k] == ';';
      assert ToLower(s)[k] == ';';
    }
  }

  /** Lower-casing and trimming commute. */
  lemma {:induction false} TrimLeftLower(s: string)
    ensures TrimLeft(ToLower(s)) == ToLower(TrimLeft(s))
  {
    if s != [] {
      LowerKeepsSpace(s[0]);
      assert ToLower(s)[1..] == ToLower(s[1..]);
      if IsSpace(s[0]) {
        TrimLeftLower(s[1..]);
      }
    }
  }

  lemma {:induction false} TrimRightLower(s: string)
    ensures TrimRight(ToLower(s)) == ToLower(TrimRight(s))
  {
    if s != [] {
      LowerKeepsSpace(s[|s| - 1]);
      assert ToLower(s)[..|s| - 1] == ToLower(s[..|s| - 1]);
      if IsSpace(s[|s| - 1]) {
        TrimRightLower(s[..|s| - 1]);
      }
    }
  }

  lemma TrimSpaceLower(s: string)
    ensures ToLower(TrimSpace(s)) == TrimSpace(ToLower(s))
  {
    TrimLeftLower(s);
    TrimRightLower(TrimLeft(s));
  }

  lemma LowerIdempotent(s: string)
    ensures ToLower(ToLower(s)) == ToLower(s)
  {
  }

  /** The decision ignores letter case in the header: headers equal up to case are treated alike. */
  lemma AdmitsIgnoresCase(allowed: seq<string>, h1: string, h2: string)
    requires ToLower(h1) == ToLower(h2)
    ensures Admits(allowed, h1) == Admits(allowed, h2)
  {
    TrimSpaceLower(h1);
    TrimSpaceLower(h2);
    assert Normalize(h1) == Normalize(h2);
  }

  /** A value with no surrounding white space and no ';' is not changed by trimming. */
  predicate Bare(t: string) {
    t != [] && !IsSpace(t[0]) && !IsSpace(t[|t| - 1]) && ';' !in t
  }

  lemma {:induction false} TrimRightKeepsPrefix(t: string, rest: string)
    requires t != [] && !IsSpace(t[|t| - 1])
    ensures TrimRight(t + rest) == t + TrimRight(rest)
  {
    if rest != [] && IsSpace(rest[|rest| - 1]) {
      assert (t + rest)[..|t + rest| - 1] == t + rest[..|rest| - 1];
      TrimRightKeepsPrefix(t, rest[..|rest| - 1]);
    } else if rest == [] {
      assert t + rest == t;
    }
  }

  /** Trimming "t + rest" for a t without white space at either end only trims the end of rest. */
  lemma TrimSpaceKeepsPrefix(t: string, rest: string)
    requires t != [] && !IsSpace(t[0]) && !IsSpace(t[|t| - 1])
    ensures TrimSpace(t + rest) == t + TrimRight(rest)
  {
    assert TrimLeft(t + rest) == t + rest;
    TrimRightKeepsPrefix(t, rest);
  }

  lemma {:induction false} CutAfter(t: string, rest: string)
    requires ';' !in t
    ensures CutParameters(t + ";" + rest) == t
  {
    if t != [] {
      assert (t + ";" + rest)[1..] == t[1..] + ";" + rest;
      CutAfter(t[1..], rest);
    }
  }

  lemma CutAfterSpace(t: string, rest: string)
    requires ';' !in t
    ensures CutParameters(t + " ;" + rest) == t + " "
  {
    assert t + " ;" + rest == (t + " ") + ";" + rest;
    CutAfter(t + " ", rest);
  }

  lemma CutNothing(t: string)
    requires ';' !in t
    ensures CutParameters(t) == t
  {
  }

  lemma NormalizeBare(t: string)
    requires Bare(t)
    ensures Normalize(t) == ToLower(t) && ';' !in ToLower(t) && ToLower(t) != []
  {
    TrimSpaceKeepsPrefix(t, []);
    assert t + [] == t;
    LowerKeepsSemicolons(t);
  }

  lemma TrimWithParameters(t: string, sep: string, params: string)
    requires Bare(t) && sep != [] && !IsSpace(sep[|sep| - 1])
    ensures TrimSpace(t + (sep + params)) == t + (sep + TrimRight(params))
  {
    TrimRightKeepsPrefix(sep, params);
    TrimSpaceKeepsPrefix(t, sep + params);
  }

  lemma LowerWithParameters(t: string, sep: string, rest: string)
    requires ToLower(sep) == sep
    ensures ToLower(t + (sep + rest)) == ToLower(t) + sep + ToLower(rest)
  {
    LowerConcat(t, sep + rest);
    LowerConcat(sep, rest);
    assert ToLower(t) + (sep + ToLower(rest)) == ToLower(t) + sep + ToLower(rest);
  }

  lemma NormalizeWithParameters(t: string, sep: string, params: string)
    requires Bare(t) && sep != [] && !IsSpace(sep[|sep| - 1]) && ToLower(sep) == sep
    ensures Normalize(t + sep + params) == ToLower(t) + sep + ToLower(TrimRight(params))
  {
    assert t + sep + params == t + (sep + params);
    TrimWithParameters(t, sep, params);
    LowerWithParameters(t, sep, TrimRight(params));
  }

  /**
   * Parameters after ';' are ignored: "t;params" is admitted exactly when "t" is,
   * for a media type written without surrounding white space.
   */
  lemma ParametersIgnored(allowed: seq<string>, t: string, params: string)
    requires Bare(t)
    ensures Admits(allowed, t + ";" + params) == Admits(allowed, t)
  {
    var low := ToLower(t);
    var rest := ToLower(TrimRight(params));
    NormalizeBare(t);
    NormalizeWithParameters(t, ";", params);
    CutAfter(low, rest);
    CutNothing(low);
    assert Normalize(t + ";" + params) == low + ";" + rest;
    assert CutParameters(Normalize(t + ";" + params)) == low;
    assert CutParameters(Normalize(t)) == low;
  }

  /**
   * No re-trim after the cut: "t ;params" compares "t " (with the space), so it is
   * admitted only when "t " itself, space included, is on the list.
   */
  lemma SpaceBeforeParametersKept(allowed: seq<string>, t: string, params: string)
    requires Bare(t)
    ensures Admits(allowed, t + " ;" + params) == (ToLower(t) + " " in allowed)
  {
    var low := ToLower(t);
    var rest := ToLower(TrimRight(params));
    NormalizeBare(t);
    NormalizeWithParameters(t, " ;", params);
    CutAfterSpace(low, rest);
    assert CutParameters(Normalize(t + " ;" + params)) == low + " ";
  }

  /** A header naming an allowed type, in any letter case, is admitted by the constructed filter. */
  lemma AllowedTypeAdmitted(contentTypes: seq<string>, allowed: seq<string>, i: nat, header: string)
    requires |allowed| == |contentTypes|
    requires forall k :: 0 <= k < |contentTypes| ==> allowed[k] == ToLower(contentTypes[k])
    requires i < |contentTypes| && Bare(header) && ToLower(header) == ToLower(contentTypes[i])
    ensures Admits(allowed, header)
  {
    NormalizeBare(header);
    CutNothing(ToLower(header));
  }
}
