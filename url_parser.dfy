/** Decoding of the smart-filter URL (`slug-from-N-to-M`, `slug-to-M`, `slug-is-a-or-b`,
    tokens separated by `/`) and the post-processing of the request map into search parameters. */
module UrlParser {
  import opened Php

  // ---------------------------------------------------------------- the separator pattern

  /** The alternatives of the pattern `-(from|to|is|or)-`, in the pattern's order. */
  const Words: seq<string> := ["from", "to", "is", "or"]

  /** The separator word the pattern matches at position `i`, if any: a dash, the word, a dash.
      The four words start with different letters, so at most one can match. */
  function SepAt(s: string, i: nat): (r: Option<string>)
    ensures r.Some? ==> r.value in Words && i + |r.value| + 2 <= |s|
  {
    if i + 3 < |s| && s[i] == '-' then
      if s[i + 1] == 'f' && i + 5 < |s| && s[i + 2] == 'r' && s[i + 3] == 'o' && s[i + 4] == 'm' && s[i + 5] == '-' then Some("from")
      else if s[i + 1] == 't' && s[i + 2] == 'o' && s[i + 3] == '-' then Some("to")
      else if s[i + 1] == 'i' && s[i + 2] == 's' && s[i + 3] == '-' then Some("is")
      else if s[i + 1] == 'o' && s[i + 2] == 'r' && s[i + 3] == '-' then Some("or")
      else None
    else None
  }

  /** A match is the dash-enclosed word, and the word is free of dashes. */
  lemma SepAtSlice(s: string, i: nat)
    requires SepAt(s, i).Some?
    ensures var w := SepAt(s, i).value;
      s[i..i + |w| + 2] == "-" + w + "-"
      && s[i] == '-' && s[i + |w| + 1] == '-'
      && forall n :: i < n < i + |w| + 1 ==> s[n] != '-'
  {
    var w := SepAt(s, i).value;
    if w == "from" {
      assert s[i..i + 6] == [s[i], s[i + 1], s[i + 2], s[i + 3], s[i + 4], s[i + 5]];
    } else {
      assert s[i..i + 4] == [s[i], s[i + 1], s[i + 2], s[i + 3]];
    }
  }

  /** A match that starts inside a prefix ending in a dash ends inside that prefix. */
  lemma SepAtInPrefix(q: string, s: string, j: nat)
    requires |q| >= 1 && q <= s && q[|q| - 1] == '-' && j < |q| - 1 && SepAt(s, j).Some?
    ensures SepAt(q, j) == SepAt(s, j)
  {
    SepAtSlice(s, j);
    var w := SepAt(s, j).value;
    assert s[|q| - 1] == '-';
    assert j + |w| + 1 <= |q| - 1;
    forall n | j <= n <= j + |w| + 1 ensures q[n] == s[n] { }
  }

  /** A match inside a prefix of `s` is a match of `s`. */
  lemma SepAtOfPrefix(q: string, s: string, j: nat)
    requires q <= s && SepAt(q, j).Some?
    ensures SepAt(s, j) == SepAt(q, j)
  {
    SepAtSlice(q, j);
    var w := SepAt(q, j).value;
    forall n | j <= n <= j + |w| + 1 ensures q[n] == s[n] { }
  }

  /** The leftmost match at or after `from`: its position and its captured word. */
  function FirstSep(s: string, from: nat): (r: Option<(nat, string)>)
    ensures r.Some? ==> from <= r.value.0 < |s| && SepAt(s, r.value.0) == Some(r.value.1)
    ensures r.Some? ==> forall j :: from <= j < r.value.0 ==> SepAt(s, j).None?
    ensures r.None? ==> forall j :: from <= j ==> SepAt(s, j).None?
    decreases |s| - from
  {
    if from >= |s| then None
    else match SepAt(s, from)
      case Some(w) => Some((from, w))
      case None => FirstSep(s, from + 1)
  }

  /** The pattern matches nowhere in `s`. */
  predicate NoSepIn(s: string) {
    forall j :: 0 <= j < |s| ==> SepAt(s, j).None?
  }

  /** `preg_split('/-(from|to|is|or)-/', $s, -1, PREG_SPLIT_DELIM_CAPTURE)`: the text pieces
      with the captured separator words between them. */
  function SplitSeps(s: string): (parts: seq<string>)
    ensures |parts| >= 1
    decreases |s|
  {
    match FirstSep(s, 0)
    case None => [s]
    case Some((i, w)) => [s[..i], w] + SplitSeps(s[i + |w| + 2..])
  }

  /** Re-inserts the dashes around every captured word. */
  function Unsplit(parts: seq<string>): string
    requires |parts| >= 1
  {
    if |parts| < 3 then parts[0] else parts[0] + "-" + parts[1] + "-" + Unsplit(parts[2..])
  }

  /** The shape of a split token: text pieces alternating with separator words, where no piece
      holds a match, not even together with the dash that follows it. */
  predicate WellSplit(parts: seq<string>)
    decreases |parts|
  {
    if |parts| == 1 then NoSepIn(parts[0])
    else |parts| >= 3 && NoSepIn(parts[0] + "-") && parts[1] in Words && WellSplit(parts[2..])
  }

  lemma SplitSepsPlain(p: string)
    requires NoSepIn(p)
    ensures SplitSeps(p) == [p]
  {
  }

  /** Splitting loses nothing: the pieces and the captured words rebuild the token. */
  lemma {:induction false} UnsplitSplitSeps(s: string)
    ensures Unsplit(SplitSeps(s)) == s
    decreases |s|
  {
    var f := FirstSep(s, 0);
    if f.Some? {
      var i := f.value.0;
      var w := f.value.1;
      var rest := s[i + |w| + 2..];
      UnsplitSplitSeps(rest);
      var parts := SplitSeps(s);
      assert parts == [s[..i], w] + SplitSeps(rest);
      assert parts[2..] == SplitSeps(rest);
      assert Unsplit(parts) == s[..i] + "-" + w + "-" + rest;
      RebuildAt(s, i);
    }
  }

  lemma RebuildAt(s: string, i: nat)
    requires SepAt(s, i).Some?
    ensures s == s[..i] + "-" + SepAt(s, i).value + "-" + s[i + |SepAt(s, i).value| + 2..]
  {
    SepAtSlice(s, i);
    Rebuild(s, i, SepAt(s, i).value);
  }

  lemma Rebuild(s: string, i: nat, w: string)
    requires i + |w| + 2 <= |s| && s[i..i + |w| + 2] == "-" + w + "-"
    ensures s == s[..i] + "-" + w + "-" + s[i + |w| + 2..]
  {
    assert s[i..] == s[i..i + |w| + 2] + s[i + |w| + 2..];
    assert s == s[..i] + s[i..];
  }

  /** Everything `preg_split` returns has the split shape: the leftmost match leaves no match
      in the piece before it. */
  lemma {:induction false} SplitSepsWellSplit(s: string)
    ensures WellSplit(SplitSeps(s))
    decreases |s|
  {
    match FirstSep(s, 0)
    case None =>
    case Some((i, w)) =>
      var rest := s[i + |w| + 2..];
      SplitSepsWellSplit(rest);
      var parts := SplitSeps(s);
      assert parts == [s[..i], w] + SplitSeps(rest);
      assert parts[2..] == SplitSeps(rest);
      PieceBeforeFirst(s, i);
  }

  /** The piece before the leftmost match, with the dash that opens the match, holds no match. */
  lemma PieceBeforeFirst(s: string, i: nat)
    requires SepAt(s, i).Some?
    requires forall j :: 0 <= j < i ==> SepAt(s, j).None?
    ensures NoSepIn(s[..i] + "-")
  {
    SepAtSlice(s, i);
    var q := s[..i] + "-";
    assert q == s[..i + 1];
    forall j | 0 <= j < |q| ensures SepAt(q, j).None? {
      if SepAt(q, j).Some? {
        SepAtOfPrefix(q, s, j);
      }
    }
  }

  lemma FirstSepAt(s: string, from: nat, k: nat)
    requires from <= k && SepAt(s, k).Some?
    requires forall j :: from <= j < k ==> SepAt(s, j).None?
    ensures FirstSep(s, from) == Some((k, SepAt(s, k).value))
    decreases k - from
  {
  }

  /** A leading piece free of separators (even with the following dash) splits off cleanly. */
  lemma SplitSepsCons(p: string, w: string, rest: string)
    requires NoSepIn(p + "-") && w in Words
    ensures SplitSeps(p + "-" + w + "-" + rest) == [p, w] + SplitSeps(rest)
  {
    var q := p + "-";
    var s := p + "-" + w + "-" + rest;
    assert q <= s;
    forall j | 0 <= j < |p| ensures SepAt(s, j).None? {
      if SepAt(s, j).Some? {
        SepAtInPrefix(q, s, j);
      }
    }
    assert s[|p|..] == "-" + w + "-" + rest;
    assert SepAt(s, |p|) == Some(w);
    FirstSepAt(s, 0, |p|);
    assert s[..|p|] == p;
    assert s[|p| + |w| + 2..] == rest;
  }

  /** The other half of the round trip: well-formed parts are split back out of their token. */
  lemma {:induction false} SplitSepsUnsplit(parts: seq<string>)
    requires WellSplit(parts)
    ensures SplitSeps(Unsplit(parts)) == parts
    decreases |parts|
  {
    if |parts| == 1 {
      SplitSepsPlain(parts[0]);
    } else {
      SplitSepsUnsplit(parts[2..]);
      UnsplitStep(parts);
    }
  }

  /** One piece and one word more: the round trip of the rest extends to the whole. */
  lemma UnsplitStep(parts: seq<string>)
    requires |parts| > 1 && WellSplit(parts)
    requires SplitSeps(Unsplit(parts[2..])) == parts[2..]
    ensures SplitSeps(Unsplit(parts)) == parts
  {
    var rest := parts[2..];
    assert Unsplit(parts) == parts[0] + "-" + parts[1] + "-" + Unsplit(rest);
    SplitSepsCons(parts[0], parts[1], Unsplit(rest));
    assert parts == [parts[0], parts[1]] + rest;
  }

  /** With no dash before its last character, a string holds no separator. */
  lemma NoDashNoSep(s: string)
    requires s == [] || '-' !in s[..|s| - 1]
    ensures NoSepIn(s)
  {
    forall j | 0 <= j < |s| ensures SepAt(s, j).None? {
      if SepAt(s, j).Some? {
        SepAtSlice(s, j);
      }
    }
  }

  // ---------------------------------------------------------------- one token

  /** `(int)$parts[$i]`, reading a missing part as null. */
  function PartInt(parts: seq<string>, i: nat): int {
    if i < |parts| then IntOf(parts[i]) else 0
  }

  function Strs(xs: seq<string>): (r: seq<Value>)
    ensures |r| == |xs| && forall i :: 0 <= i < |xs| ==> r[i] == VStr(xs[i])
  {
    seq(|xs|, i requires 0 <= i < |xs| => VStr(xs[i]))
  }

  /** The effect of one split token on the result map. The membership tests look at every
      part, values included, and the `-from-` branch reads its upper bound at position 4
      whichever separator precedes it. */
  function ApplyToken(result: OMap<Value>, parts: seq<string>): OMap<Value>
    requires |parts| >= 1
  {
    var slug := parts[0];
    if "from" in parts && |parts| > 2 then
      var r := Put(result, slug + "_from", VInt(IntOf(parts[2])));
      if |parts| > 4 then Put(r, slug + "_to", VInt(IntOf(parts[4]))) else r
    else if "to" in parts then
      Put(result, slug + "_to", VInt(if |parts| > 4 then IntOf(parts[4]) else PartInt(parts, 2)))
    else if "is" in parts then
      Put(result, slug, VList(Strs(Without(if |parts| > 2 then parts[2..] else [], "or"))))
    else result
  }

  /** The tokens applied left to right. */
  function DecodeTokens(tokens: seq<string>): OMap<Value>
  {
    if tokens == [] then []
    else ApplyToken(DecodeTokens(tokens[..|tokens| - 1]), SplitSeps(tokens[|tokens| - 1]))
  }

  lemma DecodeTokensSnoc(tokens: seq<string>, i: nat)
    requires i < |tokens|
    ensures DecodeTokens(tokens[..i + 1]) == ApplyToken(DecodeTokens(tokens[..i]), SplitSeps(tokens[i]))
  {
    assert tokens[..i + 1][..i] == tokens[..i];
  }

  /** A one-element list is replaced by its element. */
  function Collapse(v: Value): Value {
    if v.VList? && |v.items| == 1 then v.items[0] else v
  }

  /** The specification of `convertUrlToElasticParam`. */
  function UrlToParams(url: string): OMap<Value> {
    MapValues(DecodeTokens(Split(url, "/")), Collapse)
  }

  /** `convertUrlToElasticParam`: one pass over the `/`-tokens, then `array_map` of the collapse. */
  method ConvertUrlToElasticParam(url: string) returns (result: OMap<Value>)
    ensures result == UrlToParams(url)
  {
    var tokens := Split(url, "/");
    var decoded: OMap<Value> := [];
    var i := 0;
    while i < |tokens|
      invariant 0 <= i <= |tokens|
      invariant decoded == DecodeTokens(tokens[..i])
    {
      var parts := SplitSeps(tokens[i]);
      DecodeTokensSnoc(tokens, i);
      decoded := ApplyToken(decoded, parts);
      i := i + 1;
    }
    assert tokens[..i] == tokens;
    result := MapValues(decoded, Collapse);
  }

  // ---------------------------------------------------------------- properties of the grammar

  /** The empty URL decodes to the empty map. */
  lemma EmptyUrl()
    ensures UrlToParams("") == []
  {
    CharNotContained("", '/');
    assert Split("", "/") == [""];
    assert SplitSeps("") == [""];
    assert DecodeTokens([""]) == ApplyToken([], [""]);
  }

  /** A token without separators adds nothing, except the bare words `to` and `is`. */
  lemma PlainToken(result: OMap<Value>, t: string)
    requires NoSepIn(t)
    ensures t != "to" && t != "is" ==> ApplyToken(result, SplitSeps(t)) == result
    ensures t == "to" ==> ApplyToken(result, SplitSeps(t)) == Put(result, "to_to", VInt(0))
    ensures t == "is" ==> ApplyToken(result, SplitSeps(t)) == Put(result, "is", VList([]))
  {
    SplitSepsPlain(t);
    if t == "to" {
      assert "to" + "_to" == "to_to";
      assert "from" !in [t];
    } else if t == "is" {
      assert "from" !in [t] && "to" !in [t];
      assert Strs(Without([], "or")) == [];
    } else if t == "from" {
      assert "to" !in [t] && "is" !in [t];
    }
  }

  /** `slug-from-A-to-B` sets `slug_from` to (int)A and `slug_to` to (int)B; `slug-from-A-or-B` does
      the same, since the upper bound is read at position 4 whatever separator precedes it. */
  lemma FromPair(result: OMap<Value>, slug: string, a: string, w: string, b: string)
    requires w == "to" || w == "or"
    requires NoSepIn(slug + "-") && NoSepIn(a + "-") && NoSepIn(b)
    ensures ApplyToken(result, SplitSeps(Unsplit([slug, "from", a, w, b])))
         == Put(Put(result, slug + "_from", VInt(IntOf(a))), slug + "_to", VInt(IntOf(b)))
  {
    var parts := [slug, "from", a, w, b];
    assert parts[2..][2..] == [b];
    assert WellSplit(parts[2..]);
    SplitSepsUnsplit(parts);
    assert "from" in parts;
  }

  /** `slug-from-A` alone sets only `slug_from`. */
  lemma FromOnly(result: OMap<Value>, slug: string, a: string)
    requires NoSepIn(slug + "-") && NoSepIn(a)
    ensures ApplyToken(result, SplitSeps(Unsplit([slug, "from", a])))
         == Put(result, slug + "_from", VInt(IntOf(a)))
  {
    var parts := [slug, "from", a];
    assert parts[2..] == [a];
    SplitSepsUnsplit(parts);
    assert "from" in parts;
  }

  /** `slug-to-B` without any `from` sets only `slug_to` to (int)B. */
  lemma ToOnly(result: OMap<Value>, slug: string, b: string)
    requires NoSepIn(slug + "-") && NoSepIn(b) && slug != "from" && b != "from"
    ensures ApplyToken(result, SplitSeps(Unsplit([slug, "to", b]))) == Put(result, slug + "_to", VInt(IntOf(b)))
  {
    var parts := [slug, "to", b];
    assert parts[2..] == [b];
    SplitSepsUnsplit(parts);
    assert "from" !in parts;
  }

  /** The values of an `-is-` token with their `or` separators. */
  function Interleave(vs: seq<string>): (r: seq<string>)
    requires |vs| >= 1
    ensures |r| == 2 * |vs| - 1
  {
    if |vs| == 1 then vs else [vs[0], "or"] + Interleave(vs[1..])
  }

  lemma {:induction false} WithoutInterleave(vs: seq<string>)
    requires |vs| >= 1 && "or" !in vs
    ensures Without(Interleave(vs), "or") == vs
  {
    if |vs| > 1 {
      WithoutInterleave(vs[1..]);
      var t := Interleave(vs[1..]);
      assert ([vs[0], "or"] + t)[1..] == ["or"] + t;
      assert (["or"] + t)[1..] == t;
    }
  }

  lemma {:induction false} InterleaveMembers(vs: seq<string>, x: string)
    requires |vs| >= 1
    ensures x in Interleave(vs) <==> x in vs || (x == "or" && |vs| > 1)
  {
    if |vs| > 1 {
      InterleaveMembers(vs[1..], x);
      assert vs == [vs[0]] + vs[1..];
    }
  }

  lemma {:induction false} InterleaveWellSplit(vs: seq<string>)
    requires |vs| >= 1
    requires forall i :: 0 <= i < |vs| - 1 ==> NoSepIn(vs[i] + "-")
    requires NoSepIn(vs[|vs| - 1])
    ensures WellSplit(Interleave(vs))
  {
    if |vs| > 1 {
      InterleaveWellSplit(vs[1..]);
      var r := Interleave(vs);
      assert r[2..] == Interleave(vs[1..]);
    }
  }

  /** `slug-is-v1-or-v2-or-…` maps `slug` to the values in order, the `or` separators dropped. */
  lemma IsList(result: OMap<Value>, slug: string, vs: seq<string>)
    requires |vs| >= 1
    requires NoSepIn(slug + "-")
    requires forall i :: 0 <= i < |vs| - 1 ==> NoSepIn(vs[i] + "-")
    requires NoSepIn(vs[|vs| - 1])
    requires slug !in ["from", "to", "or"] && "from" !in vs && "to" !in vs && "or" !in vs
    ensures ApplyToken(result, SplitSeps(Unsplit([slug, "is"] + Interleave(vs))))
         == Put(result, slug, VList(Strs(vs)))
  {
    var parts := [slug, "is"] + Interleave(vs);
    InterleaveWellSplit(vs);
    assert parts[2..] == Interleave(vs);
    SplitSepsUnsplit(parts);
    InterleaveMembers(vs, "from");
    InterleaveMembers(vs, "to");
    assert "from" !in parts && "to" !in parts && "is" in parts;
    WithoutInterleave(vs);
  }

  /** After the collapse pass a one-value list is stored as the bare value. */
  lemma CollapseSingleton(m: OMap<Value>, k: string, v: string)
    requires Get(m, k) == Some(VList([VStr(v)]))
    ensures Get(MapValues(m, Collapse), k) == Some(VStr(v))
  {
  }

  /** A URL is its `/`-tokens decoded left to right, a later token overwriting an earlier key in place. */
  lemma TokensLeftToRight(tokens: seq<string>)
    requires |tokens| >= 1
    requires forall i :: 0 <= i < |tokens| ==> '/' !in tokens[i]
    ensures UrlToParams(Join(tokens, "/")) == MapValues(DecodeTokens(tokens), Collapse)
  {
    SplitJoin(tokens, '/');
  }

  lemma {:induction false} UnsplitKeepsOut(parts: seq<string>, c: char)
    requires |parts| >= 1 && c != '-'
    requires forall i :: 0 <= i < |parts| ==> c !in parts[i]
    ensures c !in Unsplit(parts)
  {
    if |parts| >= 3 {
      UnsplitKeepsOut(parts[2..], c);
    }
  }

  lemma NatHasNoDash(n: nat)
    ensures '-' !in NatToString(n) && '/' !in NatToString(n)
  {
    var d := NatToString(n);
    forall i | 0 <= i < |d| ensures d[i] != '-' && d[i] != '/' {
      assert IsDigit(d[i]);
    }
  }

  /** A URL without `/` is a single token. */
  lemma SingleTokenUrl(url: string)
    requires '/' !in url
    ensures UrlToParams(url) == MapValues(ApplyToken([], SplitSeps(url)), Collapse)
  {
    CharNotContained(url, '/');
    assert Split(url, "/") == [url];
    assert [url][..0] == [];
  }

  lemma NatIntOf(n: nat)
    ensures IntOf(NatToString(n)) == n
  {
    DigitPrefixOfDigits(NatToString(n));
    DigitsValueOfNat(n);
  }

  lemma BoundsPieces(slug: string, lo: nat, hi: nat)
    requires '-' !in slug
    ensures NoSepIn(slug + "-") && NoSepIn(NatToString(lo) + "-") && NoSepIn(NatToString(hi))
  {
    var a := NatToString(lo);
    var b := NatToString(hi);
    NatHasNoDash(lo);
    NatHasNoDash(hi);
    assert (slug + "-")[..|slug|] == slug;
    NoDashNoSep(slug + "-");
    assert (a + "-")[..|a|] == a;
    NoDashNoSep(a + "-");
    NoDashNoSep(b);
  }

  /** The token `slug-from-LO-to-HI` sets the two bounds, in that order. */
  lemma RangeToken(slug: string, lo: nat, hi: nat)
    requires '-' !in slug
    ensures ApplyToken([], SplitSeps(Unsplit([slug, "from", NatToString(lo), "to", NatToString(hi)])))
         == [(slug + "_from", VInt(lo)), (slug + "_to", VInt(hi))]
  {
    var a := NatToString(lo);
    var b := NatToString(hi);
    BoundsPieces(slug, lo, hi);
    FromPair([], slug, a, "to", b);
    NatIntOf(lo);
    NatIntOf(hi);
    assert |slug + "_from"| != |slug + "_to"|;
    TwoPuts(slug + "_from", VInt(lo), slug + "_to", VInt(hi));
  }

  /** A whole one-token URL `slug-from-LO-to-HI` decodes to exactly the two bounds, in that order. */
  lemma RangeUrl(slug: string, lo: nat, hi: nat)
    requires '-' !in slug && '/' !in slug
    ensures UrlToParams(Unsplit([slug, "from", NatToString(lo), "to", NatToString(hi)]))
         == [(slug + "_from", VInt(lo)), (slug + "_to", VInt(hi))]
  {
    var parts := [slug, "from", NatToString(lo), "to", NatToString(hi)];
    NatHasNoDash(lo);
    NatHasNoDash(hi);
    UnsplitKeepsOut(parts, '/');
    SingleTokenUrl(Unsplit(parts));
    RangeToken(slug, lo, hi);
    CollapseScalars([(slug + "_from", VInt(lo)), (slug + "_to", VInt(hi))]);
  }

  /** The collapse pass leaves a map without list values unchanged. */
  lemma CollapseScalars(m: OMap<Value>)
    requires forall i :: 0 <= i < |m| ==> !m[i].1.VList?
    ensures MapValues(m, Collapse) == m
  {
    var r := MapValues(m, Collapse);
    forall i | 0 <= i < |m| ensures r[i] == m[i] { }
  }

  lemma TwoPuts(k1: string, v1: Value, k2: string, v2: Value)
    requires k1 != k2
    ensures Put(Put([], k1, v1), k2, v2) == [(k1, v1), (k2, v2)]
  {
    assert Put([], k1, v1) == [(k1, v1)];
    assert [(k1, v1)][1..] == [];
  }

  // ---------------------------------------------------------------- the request map

  const SectionCodePathKey := "SECTION_CODE_PATH"
  const SmartFilterPathKey := "SMART_FILTER_PATH"

  /** A path parameter that can be handed on as a string: falsy, or a string. */
  predicate PathArg(v: Value) {
    Empty(v) || v.VStr?
  }

  /** What `$_REQUEST` must hold for the two path parameters: a non-empty array there would be
      a type error when passed to `explode` or to the URL decoder. */
  predicate RequestPathsOk(request: OMap<Value>) {
    forall e :: e in request && (e.0 == SectionCodePathKey || e.0 == SmartFilterPathKey) ==> PathArg(e.1)
  }

  /** `$m['SMART_FILTER_PATH'] ?: ''`. */
  function SmartPathOf(m: OMap<Value>): string
    requires PathArg(At(m, SmartFilterPathKey))
  {
    var v := At(m, SmartFilterPathKey);
    if Empty(v) then "" else v.s
  }

  /** The section segments: the argument when non-empty, else the request's `SECTION_CODE_PATH`
      when non-empty, else none (an undefined variable counts as zero and as empty). */
  function Sections(request: OMap<Value>, sectionCodePath: Option<string>): seq<string>
    requires RequestPathsOk(request)
  {
    if sectionCodePath.Some? && Truthy(sectionCodePath.value) then Split(sectionCodePath.value, "/")
    else if !Empty(At(request, SectionCodePathKey)) then Split(At(request, SectionCodePathKey).s, "/")
    else []
  }

  predicate NotOn(v: Value) { v != VStr("on") }

  /** The request of an ajax call without its `on` values and its `ajax` key. */
  function AjaxFiltered(request: OMap<Value>): OMap<Value> {
    Remove(FilterValues(request, NotOn), "ajax")
  }

  /** The filter an ajax call's own `SMART_FILTER_PATH` decodes to. */
  function AjaxDecoded(request: OMap<Value>): OMap<Value>
    requires RequestPathsOk(request)
  {
    var filtered := AjaxFiltered(request);
    assert PathArg(At(filtered, SmartFilterPathKey));
    UrlToParams(SmartPathOf(filtered))
  }

  /** The adult fix-up applies: the decoded `age_group` is the string `adult` and a gender is set. */
  predicate AdultFix(decoded: OMap<Value>) {
    Get(decoded, "age_group") == Some(VStr("adult")) && IsSet(decoded, "gender")
  }

  /** The three ways the base map is obtained: the raw request in an ajax call (plus the
      adult-gender fix-up), the decoded argument path, or the decoded request path. */
  function BaseParams(request: OMap<Value>, smartFilterPath: Option<string>): OMap<Value>
    requires RequestPathsOk(request)
  {
    if IsSet(request, "ajax") then
      var filtered := AjaxFiltered(request);
      var decoded := AjaxDecoded(request);
      if AdultFix(decoded) then
        Put(Put(filtered, "gender", At(decoded, "gender")), "age_group", VList([VStr("adult")]))
      else filtered
    else if smartFilterPath.Some? && Truthy(smartFilterPath.value) then
      UrlToParams(smartFilterPath.value)
    else
      UrlToParams(SmartPathOf(request))
  }

  function DropPaths(m: OMap<Value>): OMap<Value> {
    var m1 := if IsSet(m, SectionCodePathKey) then Remove(m, SectionCodePathKey) else m;
    if IsSet(m1, SmartFilterPathKey) then Remove(m1, SmartFilterPathKey) else m1
  }

  /** `category` from the last segment (when empty, with two or more segments, outside an
      ajax `y` call), then `section` from the first remaining segment. */
  function SectionStep(m: OMap<Value>, sections: seq<string>, ajaxIsY: bool): OMap<Value> {
    var takeCategory := Empty(At(m, "category")) && |sections| >= 2 && !ajaxIsY;
    var m1 := if takeCategory then Put(m, "category", VStr(sections[|sections| - 1])) else m;
    var rest := if takeCategory then sections[..|sections| - 1] else sections;
    if rest != [] then Put(m1, "section", VStr(rest[0])) else m1
  }

  /** `key` and `key_max` hold the same integer. */
  predicate MaxRule(m: OMap<Value>, key: string) {
    IsSet(m, key + "_max") && ToInt(At(m, key + "_max")) == ToInt(At(m, key))
  }

  /** `key` and `key_min` hold the same integer, and so do the matching `_to` key and its `_max`. */
  predicate MinRule(m: OMap<Value>, key: string) {
    var toKey := ReplaceAll(key, "_from", "_to");
    IsSet(m, key + "_min")
    && ToInt(At(m, key + "_min")) == ToInt(At(m, key))
    && ToInt(At(m, toKey + "_max")) == ToInt(At(m, toKey))
  }

  /** The keys a single key contributes to the removal list. */
  function RemovalsFor(m: OMap<Value>, key: string): seq<string> {
    (if MaxRule(m, key) then [key, key + "_max"] else [])
    + (if MinRule(m, key) then [key, key + "_min"] else [])
  }

  /** The removal list accumulated over the given keys, in order. */
  function RemoveList(m: OMap<Value>, keys: seq<string>): seq<string> {
    if keys == [] then [] else RemoveList(m, keys[..|keys| - 1]) + RemovalsFor(m, keys[|keys| - 1])
  }

  function RemoveAll(m: OMap<Value>, ks: seq<string>): (r: OMap<Value>)
    ensures forall k :: Get(r, k) == if k in ks then None else Get(m, k)
  {
    if ks == [] then m else Remove(RemoveAll(m, ks[..|ks| - 1]), ks[|ks| - 1])
  }

  function Prune(m: OMap<Value>): OMap<Value> {
    RemoveAll(m, RemoveList(m, Keys(m)))
  }

  /** `str_replace("'", '_', $v)`: strings are rewritten, and so is each scalar element of an array. */
  function ReplaceApostrophes(v: Value): Value {
    match v
    case VList(items) => VList(seq(|items|, i requires 0 <= i < |items| => ReplaceInElement(items[i])))
    case VMap(es) => VMap(MapValues(es, ReplaceInElement))
    case _ => VStr(ReplaceAll(StrOf(v), "'", "_"))
  }

  /** An array element is left alone when it is itself an array. */
  function ReplaceInElement(e: Value): Value {
    if e.VList? || e.VMap? then e else VStr(ReplaceAll(StrOf(e), "'", "_"))
  }

  function FixCollection(m: OMap<Value>): OMap<Value> {
    if IsSet(m, "collection") then Put(m, "collection", ReplaceApostrophes(At(m, "collection"))) else m
  }

  /** The specification of `getElasticParamsFromRequest`. */
  function ElasticParams(request: OMap<Value>, smartFilterPath: Option<string>, sectionCodePath: Option<string>): OMap<Value>
    requires RequestPathsOk(request)
  {
    var m := DropPaths(BaseParams(request, smartFilterPath));
    var m1 := SectionStep(m, Sections(request, sectionCodePath), At(request, "ajax") == VStr("y"));
    Put(FixCollection(Prune(m1)), "foto", VStr("Y"))
  }

  /** The ajax branch's `array_filter`: every entry whose value is the string `on` is dropped. */
  method DropOnValues(request: OMap<Value>) returns (filtered: OMap<Value>)
    ensures filtered == FilterValues(request, NotOn)
  {
    filtered := [];
    var i := 0;
    while i < |request|
      invariant 0 <= i <= |request|
      invariant filtered == FilterValues(request[..i], NotOn)
    {
      FilterValuesAppend(request[..i], request[i], NotOn);
      assert request[..i + 1] == request[..i] + [request[i]];
      if request[i].1 != VStr("on") {
        filtered := filtered + [request[i]];
      }
      i := i + 1;
    }
    assert request[..i] == request;
  }

  /** The branch on `ajax` and on the path argument that gives the base map. */
  method BaseFromRequest(request: OMap<Value>, smartFilterPath: Option<string>) returns (result: OMap<Value>)
    requires RequestPathsOk(request)
    ensures result == BaseParams(request, smartFilterPath)
  {
    if IsSet(request, "ajax") {
      var filtered := DropOnValues(request);
      result := Remove(filtered, "ajax");
      assert PathArg(At(result, SmartFilterPathKey));
      var decoded := ConvertUrlToElasticParam(SmartPathOf(result));
      if AdultFix(decoded) {
        result := Put(result, "gender", At(decoded, "gender"));
        result := Put(result, "age_group", VList([VStr("adult")]));
      }
    } else if smartFilterPath.Some? && Truthy(smartFilterPath.value) {
      result := ConvertUrlToElasticParam(smartFilterPath.value);
    } else {
      result := ConvertUrlToElasticParam(SmartPathOf(request));
    }
  }

  /** The first pass of the range pruning: the removal list, key by key in map order. */
  method CollectRemovals(m: OMap<Value>) returns (remove: seq<string>)
    ensures remove == RemoveList(m, Keys(m))
  {
    var keys := Keys(m);
    remove := [];
    var k := 0;
    while k < |keys|
      invariant 0 <= k <= |keys|
      invariant remove == RemoveList(m, keys[..k])
    {
      var key := keys[k];
      ghost var before := remove;
      var maxHit := MaxRule(m, key);
      var minHit := MinRule(m, key);
      if maxHit {
        remove := remove + [key, key + "_max"];
      }
      if minHit {
        remove := remove + [key, key + "_min"];
      }
      RemovalsStep(before, remove, key, maxHit, minHit);
      RemoveListStep(m, keys, k);
      k := k + 1;
    }
    assert keys[..k] == keys;
  }

  /** The two conditional appends of one key add exactly that key's removals. */
  lemma RemovalsStep(before: seq<string>, after: seq<string>, key: string, maxHit: bool, minHit: bool)
    requires after == (if maxHit then before + [key, key + "_max"] else before)
                      + (if minHit then [key, key + "_min"] else [])
    ensures after == before + ((if maxHit then [key, key + "_max"] else []) + (if minHit then [key, key + "_min"] else []))
  {
  }

  lemma RemoveListStep(m: OMap<Value>, keys: seq<string>, k: nat)
    requires k < |keys|
    ensures RemoveList(m, keys[..k + 1]) == RemoveList(m, keys[..k]) + RemovalsFor(m, keys[k])
  {
    assert keys[..k + 1][..k] == keys[..k];
  }

  /** The second pass: every listed key is unset. */
  method UnsetAll(m: OMap<Value>, remove: seq<string>) returns (pruned: OMap<Value>)
    ensures pruned == RemoveAll(m, remove)
  {
    pruned := m;
    var n := 0;
    while n < |remove|
      invariant 0 <= n <= |remove|
      invariant pruned == RemoveAll(m, remove[..n])
    {
      assert remove[..n + 1][..n] == remove[..n];
      pruned := Remove(pruned, remove[n]);
      n := n + 1;
    }
    assert remove[..n] == remove;
  }

  /** `category` popped from the end of the segments, then `section` shifted from the front. */
  method TakeSections(m: OMap<Value>, sections: seq<string>, ajaxIsY: bool) returns (result: OMap<Value>)
    ensures result == SectionStep(m, sections, ajaxIsY)
  {
    result := m;
    var rest := sections;
    if Empty(At(result, "category")) && |rest| >= 2 && !ajaxIsY {
      result := Put(result, "category", VStr(rest[|rest| - 1]));
      rest := rest[..|rest| - 1];
    }
    if rest != [] {
      result := Put(result, "section", VStr(rest[0]));
    }
  }

  /** `getElasticParamsFromRequest`, with `$_REQUEST` passed as `request`. */
  method GetElasticParamsFromRequest(request: OMap<Value>, smartFilterPath: Option<string>, sectionCodePath: Option<string>)
    returns (result: OMap<Value>)
    requires RequestPathsOk(request)
    ensures result == ElasticParams(request, smartFilterPath, sectionCodePath)
  {
    var sections := Sections(request, sectionCodePath);
    result := BaseFromRequest(request, smartFilterPath);

    if IsSet(result, SectionCodePathKey) {
      result := Remove(result, SectionCodePathKey);
    }
    if IsSet(result, SmartFilterPathKey) {
      result := Remove(result, SmartFilterPathKey);
    }
    ghost var dropped := result;
    assert dropped == DropPaths(BaseParams(request, smartFilterPath));

    result := TakeSections(result, sections, At(request, "ajax") == VStr("y"));

    var remove := CollectRemovals(result);
    result := UnsetAll(result, remove);

    if IsSet(result, "collection") {
      result := Put(result, "collection", ReplaceApostrophes(At(result, "collection")));
    }
    result := Put(result, "foto", VStr("Y"));
  }

  // ---------------------------------------------------------------- properties of the post-processing

  /** The result always carries `foto = 'Y'`, whatever came in. */
  lemma FotoAlwaysY(request: OMap<Value>, smartFilterPath: Option<string>, sectionCodePath: Option<string>)
    requires RequestPathsOk(request)
    ensures Get(ElasticParams(request, smartFilterPath, sectionCodePath), "foto") == Some(VStr("Y"))
  {
  }

  /** No entry holds null, as in `$_REQUEST` and in everything the decoder produces. */
  predicate NoNulls(m: OMap<Value>) {
    forall e :: e in m ==> e.1 != VNull
  }

  /** A decoded value: an integer bound or a list of strings. */
  predicate DecodedValue(v: Value) {
    v.VInt? || (v.VList? && forall x :: x in v.items ==> x.VStr?)
  }

  lemma StrsAreStrings(xs: seq<string>)
    ensures DecodedValue(VList(Strs(xs)))
  {
    forall x | x in Strs(xs) ensures x.VStr? {
      var i :| 0 <= i < |xs| && Strs(xs)[i] == x;
    }
  }

  lemma ApplyTokenDecoded(result: OMap<Value>, parts: seq<string>)
    requires |parts| >= 1
    requires forall e :: e in result ==> DecodedValue(e.1)
    ensures forall e :: e in ApplyToken(result, parts) ==> DecodedValue(e.1)
  {
    var slug := parts[0];
    StrsAreStrings(Without(if |parts| > 2 then parts[2..] else [], "or"));
    if "from" in parts && |parts| > 2 {
      var v := VInt(IntOf(parts[2]));
      PutKeys(result, slug + "_from", v);
      if |parts| > 4 { PutKeys(Put(result, slug + "_from", v), slug + "_to", VInt(IntOf(parts[4]))); }
    } else if "to" in parts {
      PutKeys(result, slug + "_to", VInt(if |parts| > 4 then IntOf(parts[4]) else PartInt(parts, 2)));
    } else if "is" in parts {
      PutKeys(result, slug, VList(Strs(Without(if |parts| > 2 then parts[2..] else [], "or"))));
    }
  }

  lemma {:induction false} DecodedValues(tokens: seq<string>)
    ensures forall e :: e in DecodeTokens(tokens) ==> DecodedValue(e.1)
  {
    if tokens != [] {
      DecodedValues(tokens[..|tokens| - 1]);
      ApplyTokenDecoded(DecodeTokens(tokens[..|tokens| - 1]), SplitSeps(tokens[|tokens| - 1]));
    }
  }

  lemma NoNullValues(url: string)
    ensures NoNulls(UrlToParams(url))
  {
    var d := DecodeTokens(Split(url, "/"));
    DecodedValues(Split(url, "/"));
    var r := UrlToParams(url);
    forall e | e in r ensures e.1 != VNull {
      var i :| 0 <= i < |r| && r[i] == e;
      assert d[i] in d;
      var v := d[i].1;
      if v.VList? && |v.items| == 1 {
        assert v.items[0] in v.items;
      }
    }
  }

  lemma NoNullBase(request: OMap<Value>, smartFilterPath: Option<string>)
    requires RequestPathsOk(request) && NoNulls(request)
    ensures NoNulls(BaseParams(request, smartFilterPath))
  {
    if IsSet(request, "ajax") {
      NoNullAjax(request);
    } else if smartFilterPath.Some? && Truthy(smartFilterPath.value) {
      NoNullValues(smartFilterPath.value);
    } else {
      NoNullValues(SmartPathOf(request));
    }
  }

  /** The ajax branch keeps request entries and adds decoded ones. */
  lemma NoNullAjax(request: OMap<Value>)
    requires RequestPathsOk(request) && NoNulls(request) && IsSet(request, "ajax")
    ensures NoNulls(BaseParams(request, None))
  {
    var filtered := Remove(FilterValues(request, NotOn), "ajax");
    var decoded := UrlToParams(SmartPathOf(filtered));
    NoNullValues(SmartPathOf(filtered));
    if Get(decoded, "age_group") == Some(VStr("adult")) && IsSet(decoded, "gender") {
      var g := At(decoded, "gender");
      assert (("gender", g)) in decoded;
      PutNoNulls(filtered, "gender", g);
      PutNoNulls(Put(filtered, "gender", g), "age_group", VList([VStr("adult")]));
    }
  }

  lemma PutNoNulls(m: OMap<Value>, k: string, v: Value)
    requires NoNulls(m) && v != VNull
    ensures NoNulls(Put(m, k, v))
  {
    PutKeys(m, k, v);
  }

  /** Without nulls, `isset` is presence, so both path keys are gone after the drop. */
  lemma DropPathsRemoves(m: OMap<Value>)
    requires NoNulls(m)
    ensures Get(DropPaths(m), SectionCodePathKey).None? && Get(DropPaths(m), SmartFilterPathKey).None?
  {
  }

  /** The steps after the drop never write a path key. */
  lemma LaterStepsKeepOut(m: OMap<Value>, sections: seq<string>, ajaxIsY: bool, k: string)
    requires k == SectionCodePathKey || k == SmartFilterPathKey
    requires Get(m, k).None?
    ensures Get(Put(FixCollection(Prune(SectionStep(m, sections, ajaxIsY))), "foto", VStr("Y")), k).None?
  {
    var m1 := SectionStep(m, sections, ajaxIsY);
    SectionStepOther(m, sections, ajaxIsY, k);
    var m2 := Prune(m1);
    assert Get(m2, k).None?;
    FixCollectionOther(m2, k);
  }

  /** The section step writes `category` and `section` only. */
  lemma SectionStepOther(m: OMap<Value>, sections: seq<string>, ajaxIsY: bool, k: string)
    requires k != "category" && k != "section"
    ensures Get(SectionStep(m, sections, ajaxIsY), k) == Get(m, k)
  {
  }

  /** The apostrophe fix writes `collection` only. */
  lemma FixCollectionOther(m: OMap<Value>, k: string)
    requires k != "collection"
    ensures Get(FixCollection(m), k) == Get(m, k)
  {
  }

  /** The result never holds `SECTION_CODE_PATH` or `SMART_FILTER_PATH`. */
  lemma NoPathKeys(request: OMap<Value>, smartFilterPath: Option<string>, sectionCodePath: Option<string>)
    requires RequestPathsOk(request) && NoNulls(request)
    ensures SectionCodePathKey !in Keys(ElasticParams(request, smartFilterPath, sectionCodePath))
    ensures SmartFilterPathKey !in Keys(ElasticParams(request, smartFilterPath, sectionCodePath))
  {
    var base := BaseParams(request, smartFilterPath);
    NoNullBase(request, smartFilterPath);
    DropPathsRemoves(base);
    var sections := Sections(request, sectionCodePath);
    var ajaxIsY := At(request, "ajax") == VStr("y");
    LaterStepsKeepOut(DropPaths(base), sections, ajaxIsY, SectionCodePathKey);
    LaterStepsKeepOut(DropPaths(base), sections, ajaxIsY, SmartFilterPathKey);
    GetKeys(ElasticParams(request, smartFilterPath, sectionCodePath), SectionCodePathKey);
    GetKeys(ElasticParams(request, smartFilterPath, sectionCodePath), SmartFilterPathKey);
  }

  /** A key is pruned exactly when some key of the map puts it on the removal list: the key itself
      or its `_max` partner under the `_max` rule, the key itself or its `_min` partner under the `_min` rule. */
  lemma {:induction false} RemoveListMembers(m: OMap<Value>, keys: seq<string>, x: string)
    ensures x in RemoveList(m, keys) <==>
      exists j :: j in keys && ((MaxRule(m, j) && (x == j || x == j + "_max")) || (MinRule(m, j) && (x == j || x == j + "_min")))
  {
    if keys != [] {
      var init := keys[..|keys| - 1];
      RemoveListMembers(m, init, x);
      assert keys == init + [keys[|keys| - 1]];
    }
  }

  /** Pruning keeps every other key with its value. */
  lemma PruneSpec(m: OMap<Value>, x: string)
    ensures Get(Prune(m), x) == if x in RemoveList(m, Keys(m)) then None else Get(m, x)
  {
  }

  /** Equal `key`/`key_max` integers remove both keys. */
  lemma PruneMaxPair(m: OMap<Value>, key: string)
    requires key in Keys(m) && MaxRule(m, key)
    ensures Get(Prune(m), key).None? && Get(Prune(m), key + "_max").None?
  {
    RemoveListMembers(m, Keys(m), key);
    RemoveListMembers(m, Keys(m), key + "_max");
  }

  /** Equal `key`/`key_min` integers remove both keys when the matching `_to` pair is equal too. */
  lemma PruneMinPair(m: OMap<Value>, key: string)
    requires key in Keys(m) && MinRule(m, key)
    ensures Get(Prune(m), key).None? && Get(Prune(m), key + "_min").None?
  {
    RemoveListMembers(m, Keys(m), key);
    RemoveListMembers(m, Keys(m), key + "_min");
  }

  /** `category` is the last segment exactly under the three conditions; `section` is the first
      segment that remains. */
  lemma SectionStepSpec(m: OMap<Value>, sections: seq<string>, ajaxIsY: bool)
    ensures var r := SectionStep(m, sections, ajaxIsY);
      (Empty(At(m, "category")) && |sections| >= 2 && !ajaxIsY ==>
         Get(r, "category") == Some(VStr(sections[|sections| - 1])) && Get(r, "section") == Some(VStr(sections[0])))
      && (!(Empty(At(m, "category")) && |sections| >= 2 && !ajaxIsY) ==>
         Get(r, "category") == Get(m, "category")
         && Get(r, "section") == if sections != [] then Some(VStr(sections[0])) else Get(m, "section"))
  {
  }

  /** A string `collection` loses all its apostrophes. */
  lemma CollectionApostrophes(m: OMap<Value>, s: string)
    requires Get(m, "collection") == Some(VStr(s))
    ensures Get(FixCollection(m), "collection") == Some(VStr(ReplaceAll(s, "'", "_")))
    ensures '\'' !in ReplaceAll(s, "'", "_")
  {
    ReplaceCharRemoves(s, '\'', '_');
  }

  /** In an ajax call the base is the request minus `on` values and the `ajax` key; only
      `gender` and `age_group` may come from the decoded path. */
  lemma AjaxKeepsRequest(request: OMap<Value>, smartFilterPath: Option<string>, k: string)
    requires RequestPathsOk(request) && IsSet(request, "ajax")
    requires k != "ajax" && k != "gender" && k != "age_group"
    ensures Get(request, k).Some? && Get(request, k).value != VStr("on") ==>
              Get(BaseParams(request, smartFilterPath), k) == Get(request, k)
    ensures Get(request, k).None? ==> Get(BaseParams(request, smartFilterPath), k).None?
  {
  }

  /** The adult fix-up of an ajax call: when the decoded path says `age_group` `adult` and sets
      a gender, `gender` comes from the path and `age_group` becomes the list `['adult']`;
      otherwise both keep their request values (unless `on`) and stay absent when absent. */
  lemma AjaxAdult(request: OMap<Value>, smartFilterPath: Option<string>)
    requires RequestPathsOk(request) && IsSet(request, "ajax")
    ensures var base := BaseParams(request, smartFilterPath);
      var decoded := AjaxDecoded(request);
      && (AdultFix(decoded) ==>
            Get(base, "gender") == Get(decoded, "gender") && Get(base, "age_group") == Some(VList([VStr("adult")])))
      && (!AdultFix(decoded) ==> forall k :: k in ["gender", "age_group"] ==>
            (Get(request, k).Some? && Get(request, k).value != VStr("on") ==> Get(base, k) == Get(request, k))
            && (Get(request, k).None? ==> Get(base, k).None?))
  {
    var base := BaseParams(request, smartFilterPath);
    var filtered := AjaxFiltered(request);
    var decoded := AjaxDecoded(request);
    if AdultFix(decoded) {
      assert base == Put(Put(filtered, "gender", At(decoded, "gender")), "age_group", VList([VStr("adult")]));
    } else {
      assert base == filtered;
    }
  }
}
