/** The two context patterns of the memory provider,
    `[Cc]ustomer[:\s]+([A-Za-z0-9_-]+)` and `[Ss]ervice[:\s]+([A-Za-z0-9_-]+)`,
    and `re.search` over them: the leftmost start index at which the pattern
    matches, the capital or small keyword, at least one separator (`:` or
    white space), then the longest non-empty token. The pattern has no word
    boundary, so the keyword may sit inside a longer word. */
module ContextPattern {
  import opened Wrappers

  /** A keyword whose first letter may be capital or small, as in `[Cc]ustomer`. */
  datatype Keyword = Keyword(upper: char, lower: char, tail: string)

  const CustomerKeyword: Keyword := Keyword('C', 'c', "ustomer")
  const ServiceKeyword: Keyword := Keyword('S', 's', "ervice")

  /** `\s` below code point 128: the characters `str.isspace` accepts there. */
  predicate IsSpace(c: char)
  {
    9 <= c as int <= 13 || 28 <= c as int <= 32
  }

  /** `[:\s]` */
  predicate IsSeparator(c: char)
  {
    c == ':' || IsSpace(c)
  }

  /** `[A-Za-z0-9_-]` */
  predicate IsTokenChar(c: char)
  {
    'A' <= c <= 'Z' || 'a' <= c <= 'z' || '0' <= c <= '9' || c == '_' || c == '-'
  }

  /** The number of consecutive characters of `s` from index `i` on that
      satisfy `p`: the run a greedy `[...]*` consumes. */
  function RunLength(s: string, i: nat, p: char -> bool): (n: nat)
    requires i <= |s|
    ensures i + n <= |s|
    ensures forall k :: i <= k < i + n ==> p(s[k])
    ensures i + n == |s| || !p(s[i + n])
    decreases |s| - i
  {
    if i < |s| && p(s[i]) then 1 + RunLength(s, i + 1, p) else 0
  }

  /** The keyword, with either first letter, starts at index `i`. */
  predicate KeywordAt(s: string, kw: Keyword, i: nat)
  {
    i + 1 + |kw.tail| <= |s|
    && (s[i] == kw.upper || s[i] == kw.lower)
    && s[i + 1..i + 1 + |kw.tail|] == kw.tail
  }

  /** A match: it starts at `start`, the separators run from the end of the
      keyword to `tokenStart`, and group 1 is `s[tokenStart..tokenEnd]`. */
  datatype Span = Span(start: nat, tokenStart: nat, tokenEnd: nat)

  /** What the regular expression accepts, with any number of separators and
      token characters (no greediness). */
  ghost predicate MatchSpan(s: string, kw: Keyword, sp: Span)
  {
    var j := sp.start + 1 + |kw.tail|;
    KeywordAt(s, kw, sp.start)
    && j < sp.tokenStart < sp.tokenEnd <= |s|
    && (forall k :: j <= k < sp.tokenStart ==> IsSeparator(s[k]))
    && (forall k :: sp.tokenStart <= k < sp.tokenEnd ==> IsTokenChar(s[k]))
  }

  /** The match the greedy engine reports: the token cannot be extended. */
  ghost predicate GreedyMatch(s: string, kw: Keyword, sp: Span)
  {
    MatchSpan(s, kw, sp) && (sp.tokenEnd == |s| || !IsTokenChar(s[sp.tokenEnd]))
  }

  /** The pattern matches at start index `i` in some way. */
  ghost predicate MatchesAt(s: string, kw: Keyword, i: nat)
  {
    exists e: nat, f: nat :: MatchSpan(s, kw, Span(i, e, f))
  }

  /** The engine's attempt at start index `i`: keyword, maximal separator run
      (at least one), maximal token run (at least one). */
  function MatchAt(s: string, kw: Keyword, i: nat): Option<Span>
    requires i <= |s|
  {
    if !KeywordAt(s, kw, i) then None
    else
      var j := i + 1 + |kw.tail|;
      var e := j + RunLength(s, j, IsSeparator);
      if e == j then None
      else
        var f := e + RunLength(s, e, IsTokenChar);
        if f == e then None else Some(Span(i, e, f))
  }

  /** `re.search` from index `i` on: the first start index with a match. */
  function FirstMatchFrom(s: string, kw: Keyword, i: nat): (r: Option<Span>)
    requires i <= |s|
    ensures r.Some? ==> i <= r.value.start && GreedyMatch(s, kw, r.value)
    ensures r.Some? ==> forall i' :: i <= i' < r.value.start ==> !MatchesAt(s, kw, i')
    ensures r.None? ==> forall i' :: i <= i' <= |s| ==> !MatchesAt(s, kw, i')
    decreases |s| - i
  {
    MatchAtCorrect(s, kw, i);
    var m := MatchAt(s, kw, i);
    if m.Some? || i == |s| then m else FirstMatchFrom(s, kw, i + 1)
  }

  /** `m.group(1)` for `m = re.search(pattern, s)`, or None without a match. */
  function Search(s: string, kw: Keyword): (r: Option<string>)
    ensures r.Some? ==> |r.value| >= 1 && forall k :: 0 <= k < |r.value| ==> IsTokenChar(r.value[k])
    ensures r.None? <==> forall i :: 0 <= i <= |s| ==> !MatchesAt(s, kw, i)
  {
    match FirstMatchFrom(s, kw, 0)
    case None => None
    case Some(sp) =>
      assert MatchSpan(s, kw, Span(sp.start, sp.tokenStart, sp.tokenEnd));
      assert MatchesAt(s, kw, sp.start);
      Some(s[sp.tokenStart..sp.tokenEnd])
  }

  // ---------------------------------------------------------------------------
  // Lemmas

  /** Any match at `sp.start` makes the engine succeed there, with the same
      separator run and a token at least as long. */
  lemma MatchSpanFound(s: string, kw: Keyword, sp: Span)
    requires sp.start <= |s|
    ensures MatchSpan(s, kw, sp) ==>
      MatchAt(s, kw, sp.start).Some?
      && MatchAt(s, kw, sp.start).value.tokenStart == sp.tokenStart
      && sp.tokenEnd <= MatchAt(s, kw, sp.start).value.tokenEnd
  {
    if MatchSpan(s, kw, sp) {
      var j := sp.start + 1 + |kw.tail|;
      var n := RunLength(s, j, IsSeparator);
      assert IsSeparator(s[j]);
      assert IsTokenChar(s[sp.tokenStart]);
      assert j + n == sp.tokenStart;
      var t := RunLength(s, sp.tokenStart, IsTokenChar);
      assert sp.tokenStart + t >= sp.tokenEnd;
    }
  }

  /** The engine's attempt at `i` is right: when it succeeds it reports the
      greedy match starting at `i`, and when it fails there is no match at `i`. */
  lemma MatchAtCorrect(s: string, kw: Keyword, i: nat)
    requires i <= |s|
    ensures MatchAt(s, kw, i).Some? ==>
      MatchAt(s, kw, i).value.start == i && GreedyMatch(s, kw, MatchAt(s, kw, i).value)
    ensures MatchAt(s, kw, i).None? ==> !MatchesAt(s, kw, i)
  {
    forall e: nat, f: nat
      ensures MatchAt(s, kw, i).None? ==> !MatchSpan(s, kw, Span(i, e, f))
    {
      MatchSpanFound(s, kw, Span(i, e, f));
    }
  }

  /** A greedy match is determined by its start index, so "the token of the
      leftmost match" is well defined. */
  lemma GreedyMatchUnique(s: string, kw: Keyword, a: Span, b: Span)
    requires GreedyMatch(s, kw, a) && GreedyMatch(s, kw, b) && a.start == b.start
    ensures a == b
  {
    MatchSpanFound(s, kw, a);
    MatchSpanFound(s, kw, b);
    MatchAtCorrect(s, kw, a.start);
    var m := MatchAt(s, kw, a.start).value;
    assert a.tokenStart == m.tokenStart == b.tokenStart;
    assert a.tokenEnd == m.tokenEnd;
    assert b.tokenEnd == m.tokenEnd;
  }

  /** The search reports the token of the leftmost match, taken greedily. */
  lemma SearchIsLeftmostGreedy(s: string, kw: Keyword, sp: Span)
    requires GreedyMatch(s, kw, sp)
    requires forall i :: 0 <= i < sp.start ==> !MatchesAt(s, kw, i)
    ensures Search(s, kw) == Some(s[sp.tokenStart..sp.tokenEnd])
  {
    var r := FirstMatchFrom(s, kw, 0);
    assert MatchesAt(s, kw, sp.start) by {
      assert MatchSpan(s, kw, Span(sp.start, sp.tokenStart, sp.tokenEnd));
    }
    var found := r.value;
    if found.start < sp.start {
      assert MatchesAt(s, kw, found.start) by {
        assert MatchSpan(s, kw, Span(found.start, found.tokenStart, found.tokenEnd));
      }
    }
    GreedyMatchUnique(s, kw, found, sp);
  }

  /** The keyword may sit inside a longer word: "microservice: x" names the
      service "x". */
  lemma NoWordBoundary()
    ensures Search("microservice: x", ServiceKeyword) == Some("x")
  {
    var s := "microservice: x";
    var sp := Span(5, 14, 15);
    assert |s| == 15 && s[5] == 's' && s[12] == ':' && s[13] == ' ' && s[14] == 'x';
    assert s[6..12] == "ervice";
    assert KeywordAt(s, ServiceKeyword, 5);
    assert MatchSpan(s, ServiceKeyword, sp);
    assert GreedyMatch(s, ServiceKeyword, sp);
    forall i | 0 <= i < 5
      ensures !MatchesAt(s, ServiceKeyword, i)
    {
      assert !KeywordAt(s, ServiceKeyword, i);
    }
    assert s[14..15] == ['x'];
    SearchIsLeftmostGreedy(s, ServiceKeyword, sp);
  }

  /** No capital or small keyword letter of `p` is followed by the keyword's
      second letter, so no match can start inside `p`. */
  predicate NoKeywordIn(p: string, kw: Keyword)
  {
    forall k :: 0 <= k < |p| && (p[k] == kw.upper || p[k] == kw.lower) ==>
      k + 1 < |p| && (|kw.tail| == 0 || p[k + 1] != kw.tail[0])
  }

  /** A keyword, separators and a token after a prefix where no match can
      start: the search reports exactly that token. */
  lemma MatchAfter(s: string, p: string, kw: Keyword, seps: string, tok: string, rest: string)
    requires s == p + [kw.upper] + kw.tail + seps + tok + rest
    requires |kw.tail| >= 1 && NoKeywordIn(p, kw)
    requires |seps| >= 1 && forall k :: 0 <= k < |seps| ==> IsSeparator(seps[k])
    requires |tok| >= 1 && forall k :: 0 <= k < |tok| ==> IsTokenChar(tok[k])
    requires rest == [] || !IsTokenChar(rest[0])
    ensures Search(s, kw) == Some(tok)
  {
    var j := |p| + 1 + |kw.tail|;
    var sp := Span(|p|, j + |seps|, j + |seps| + |tok|);
    assert s[|p| + 1..j] == kw.tail;
    assert GreedyMatch(s, kw, sp) by {
      forall k | j <= k < sp.tokenStart
        ensures IsSeparator(s[k])
      {
        assert s[k] == seps[k - j];
      }
      forall k | sp.tokenStart <= k < sp.tokenEnd
        ensures IsTokenChar(s[k])
      {
        assert s[k] == tok[k - sp.tokenStart];
      }
      if sp.tokenEnd < |s| {
        assert s[sp.tokenEnd] == rest[0];
      }
    }
    forall i | 0 <= i < sp.start
      ensures !MatchesAt(s, kw, i)
    {
      assert s[i] == p[i];
      if i + 1 < |p| {
        assert s[i + 1] == p[i + 1];
      }
      if i + 1 + |kw.tail| <= |s| {
        assert s[i + 1..i + 1 + |kw.tail|][0] == s[i + 1];
      }
    }
    SearchIsLeftmostGreedy(s, kw, sp);
    assert s[sp.tokenStart..sp.tokenEnd] == tok;
  }
}
