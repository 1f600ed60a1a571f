/**
 * HTTP method flags and the name table of core/method.go.
 * Go declares methodTyp as `int` and uses it only as a bit pattern, so here it
 * wraps a 64-bit vector (wrapped, because the verifier reasons about datatype
 * map keys but not about bare bit-vector map keys).
 */
module Methods {
  import opened Wrappers

  datatype MethodTyp = MethodTyp(bits: bv64)

  const CONNECT: MethodTyp := MethodTyp(1 << 0)
  const DELETE: MethodTyp := MethodTyp(1 << 1)
  const GET: MethodTyp := MethodTyp(1 << 2)
  const HEAD: MethodTyp := MethodTyp(1 << 3)
  const OPTIONS: MethodTyp := MethodTyp(1 << 4)
  const PATCH: MethodTyp := MethodTyp(1 << 5)
  const POST: MethodTyp := MethodTyp(1 << 6)
  const PUT: MethodTyp := MethodTyp(1 << 7)
  const TRACE: MethodTyp := MethodTyp(1 << 8)

  /** The composite "every method" key: the bitwise OR of the nine flags. */
  const ALL: MethodTyp := MethodTyp(
    CONNECT.bits | DELETE.bits | GET.bits | HEAD.bits | OPTIONS.bits
    | PATCH.bits | POST.bits | PUT.bits | TRACE.bits)

  /** The nine flags in declaration (iota) order. */
  const Flags: seq<MethodTyp> := [CONNECT, DELETE, GET, HEAD, OPTIONS, PATCH, POST, PUT, TRACE]

  /** methodMap: the method names of section 9 of RFC 9110, as net/http spells them. */
  const MethodMap: map<string, MethodTyp> := map[
    "CONNECT" := CONNECT,
    "DELETE" := DELETE,
    "GET" := GET,
    "HEAD" := HEAD,
    "OPTIONS" := OPTIONS,
    "PATCH" := PATCH,
    "POST" := POST,
    "PUT" := PUT,
    "TRACE" := TRACE
  ]

  predicate SingleBit(f: MethodTyp) {
    f.bits != 0 && f.bits & (f.bits - 1) == 0
  }

  /**
   * unicode.ToUpper on the characters that can land on an ASCII letter: a-z,
   * the long s (U+017F, upper case 'S') and the dotless i (U+0131, upper case 'I').
   * Every other character is kept as it is.
   */
  function UpperChar(c: char): (u: char)
    ensures 'a' <= c <= 'z' ==> u as int == c as int - 32
    ensures c == '\U{17F}' ==> u == 'S'
    ensures c == '\U{131}' ==> u == 'I'
    ensures !('a' <= c <= 'z') && c != '\U{17F}' && c != '\U{131}' ==> u == c
  {
    if 'a' <= c <= 'z' then (c as int - 32) as char
    else if c == '\U{17F}' then 'S'
    else if c == '\U{131}' then 'I'
    else c
  }

  /** strings.ToUpper, restricted to the characters whose upper case is an ASCII letter. */
  function ToUpper(s: string): (r: string)
    ensures |r| == |s|
    ensures forall i :: 0 <= i < |s| ==> r[i] == UpperChar(s[i])
  {
    seq(|s|, i requires 0 <= i < |s| => UpperChar(s[i]))
  }

  /** The lookup done by Mux.Method: upper-case the name, then consult methodMap. */
  function ResolveName(name: string): (r: Option<MethodTyp>)
    ensures r.Some? <==> ToUpper(name) in MethodMap
    ensures r.Some? ==> r.value in Flags && SingleBit(r.value) && r.value != ALL
  {
    var upper := ToUpper(name);
    if upper in MethodMap then Some(MethodMap[upper]) else None
  }

  /** Flag i is the bit 1 << i, for i in 0..8. */
  lemma FlagsAreShiftedBits()
    ensures |Flags| == 9
    ensures forall i :: 0 <= i < 9 ==> Flags[i].bits == (1 as bv64) << i
  {
  }

  /** The nine flags are single, pairwise disjoint (hence distinct) bits. */
  lemma FlagsAreDisjointBits()
    ensures forall i :: 0 <= i < |Flags| ==> SingleBit(Flags[i])
    ensures forall i, j :: 0 <= i < j < |Flags| ==> Flags[i].bits & Flags[j].bits == 0 && Flags[i] != Flags[j]
  {
  }

  /** mALL is the union of exactly the nine flags: 511. */
  lemma AllIsUnionOfFlags()
    ensures ALL.bits == 511
    ensures forall i :: 0 <= i < |Flags| ==> ALL.bits & Flags[i].bits == Flags[i].bits && Flags[i] != ALL
  {
  }

  /** The method names in declaration order. */
  const Names: seq<string> := ["CONNECT", "DELETE", "GET", "HEAD", "OPTIONS", "PATCH", "POST", "PUT", "TRACE"]

  /** methodMap pairs the i-th name with the i-th flag, and has no other keys. */
  lemma MethodMapPairs()
    ensures |Names| == |Flags|
    ensures forall i :: 0 <= i < |Names| ==> Names[i] in MethodMap && MethodMap[Names[i]] == Flags[i]
    ensures forall n :: n in MethodMap ==> n in Names
  {
  }

  /** methodMap is injective, onto the nine flags, and never yields mALL. */
  lemma MethodMapIsInjective()
    ensures forall a, b :: a in MethodMap && b in MethodMap && a != b ==> MethodMap[a] != MethodMap[b]
    ensures forall n :: n in MethodMap ==> MethodMap[n] in Flags && MethodMap[n] != ALL
    ensures forall i :: 0 <= i < |Flags| ==> Flags[i] in MethodMap.Values
  {
    MethodMapPairs();
    FlagsAreDisjointBits();
    AllIsUnionOfFlags();
    forall a, b | a in MethodMap && b in MethodMap && a != b
      ensures MethodMap[a] != MethodMap[b]
    {
      var i :| 0 <= i < |Names| && Names[i] == a;
      var j :| 0 <= j < |Names| && Names[j] == b;
      assert i != j;
    }
    forall i | 0 <= i < |Flags|
      ensures Flags[i] in MethodMap.Values
    {
      assert MethodMap[Names[i]] == Flags[i];
    }
  }

  /** The keys of methodMap are already upper-case. */
  lemma MethodMapKeysUpperCase()
    ensures forall n :: n in MethodMap ==> ToUpper(n) == n
  {
  }

  /** The table itself is case-sensitive; only ResolveName folds case. */
  lemma LookupIsCaseSensitive()
    ensures "get" !in MethodMap && "GET" in MethodMap
    ensures ResolveName("get") == Some(GET) && ResolveName("Get") == Some(GET)
    ensures ResolveName("FETCH") == None
  {
    assert ToUpper("get") == "GET";
    assert ToUpper("Get") == "GET";
    assert ToUpper("FETCH") == "FETCH";
  }

  /** The two non-ASCII letters whose upper case is ASCII fold into method names too. */
  lemma NonAsciiFolding()
    ensures ResolveName("po\U{17F}t") == Some(POST)
    ensures ResolveName("opt\U{131}ons") == Some(OPTIONS)
    ensures ResolveName("po\U{17F}t") == ResolveName("POST")
  {
    assert ToUpper("po\U{17F}t") == "POST";
    assert ToUpper("opt\U{131}ons") == "OPTIONS";
    assert ToUpper("POST") == "POST";
  }

  /** Every name of methodMap resolves to its own flag through ResolveName. */
  lemma ResolveNameAgreesWithMap(name: string)
    requires name in MethodMap
    ensures ResolveName(name) == Some(MethodMap[name])
  {
    MethodMapKeysUpperCase();
  }
}
