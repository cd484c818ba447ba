/** String handling the calculator's command loop relies on: Python's
    `str.strip()`, `str.lower()`, `str.startswith`, the glyph rewrite
    `replace('×', '*').replace('÷', '/')` and `str.split()` with no argument.
    Strings are Python's `str` restricted to Unicode scalar values: Dafny's
    `char` has no lone surrogates. */
module Text {

  /** Python's whitespace set (`str.isspace`), which both `strip()` and
      `split()` use when called without an argument. */
  predicate IsSpace(c: char) {
    || ('\t' <= c <= '\r')
    || ('\U{1C}' <= c <= '\U{1F}')
    || c == ' '
    || c == '\U{85}'
    || c == '\U{A0}'
    || c == '\U{1680}'
    || ('\U{2000}' <= c <= '\U{200A}')
    || c == '\U{2028}'
    || c == '\U{2029}'
    || c == '\U{202F}'
    || c == '\U{205F}'
    || c == '\U{3000}'
  }

  predicate AllSpace(s: string) {
    forall i :: 0 <= i < |s| ==> IsSpace(s[i])
  }

  /** A word produced by `split()`: non-empty and free of whitespace. */
  predicate IsToken(w: string) {
    |w| > 0 && forall i :: 0 <= i < |w| ==> !IsSpace(w[i])
  }

  /** Every word of `ws` is a token. */
  predicate AllTokens(ws: seq<string>) {
    ws == [] || (IsToken(ws[0]) && AllTokens(ws[1..]))
  }

  predicate StartsWith(s: string, prefix: string) {
    |prefix| <= |s| && s[..|prefix|] == prefix
  }

  /** The characters of `s` that are not whitespace, in order. */
  function NonSpace(s: string): string {
    if s == [] then []
    else if IsSpace(s[0]) then NonSpace(s[1..])
    else [s[0]] + NonSpace(s[1..])
  }

  function Concat(ws: seq<string>): string {
    if ws == [] then [] else ws[0] + Concat(ws[1..])
  }

  /** The words joined by single spaces: the shape `split()` undoes. */
  function JoinWords(ws: seq<string>): string {
    if ws == [] then []
    else if |ws| == 1 then ws[0]
    else ws[0] + ([' '] + JoinWords(ws[1..]))
  }

  /** How many whitespace characters `s` starts with. */
  function LeadingSpaces(s: string): (n: nat)
    ensures n <= |s|
    ensures forall i :: 0 <= i < n ==> IsSpace(s[i])
    ensures n == |s| || !IsSpace(s[n])
  {
    if s != [] && IsSpace(s[0]) then 1 + LeadingSpaces(s[1..]) else 0
  }

  /** How many whitespace characters `s` ends with. */
  function TrailingSpaces(s: string): (n: nat)
    ensures n <= |s|
    ensures forall i :: |s| - n <= i < |s| ==> IsSpace(s[i])
    ensures n == |s| || !IsSpace(s[|s| - n - 1])
  {
    if s != [] && IsSpace(s[|s| - 1]) then 1 + TrailingSpaces(s[..|s| - 1]) else 0
  }

  /** How many non-whitespace characters `s` starts with. */
  function WordLength(s: string): (n: nat)
    ensures n <= |s|
    ensures forall i :: 0 <= i < n ==> !IsSpace(s[i])
    ensures n == |s| || IsSpace(s[n])
  {
    if s != [] && !IsSpace(s[0]) then 1 + WordLength(s[1..]) else 0
  }

  /** Python's `str.strip()`: the result is a slice of `s` that neither
      starts nor ends with whitespace, and only whitespace lies around it. */
  function Strip(s: string): (r: string)
    ensures |r| <= |s|
    ensures r == [] || (!IsSpace(r[0]) && !IsSpace(r[|r| - 1]))
    ensures exists i :: 0 <= i <= |s| - |r| && s[i..i + |r|] == r
                        && AllSpace(s[..i]) && AllSpace(s[i + |r|..])
  {
    var i := LeadingSpaces(s);
    var j := TrailingSpaces(s[i..]);
    assert AllSpace(s[..i]);
    assert AllSpace(s[|s| - j..]);
    s[i..|s| - j]
  }

  /** ASCII case folding. For the keywords the loop compares against
      (`quit`, `exit`, `q`, `history`, `clear`) it agrees with `str.lower()`:
      no other character lower-cases to one of their letters. */
  function LowerChar(c: char): char {
    if 'A' <= c <= 'Z' then (c as int + 32) as char else c
  }

  function Lower(s: string): (r: string)
    ensures |r| == |s|
    ensures forall i :: 0 <= i < |s| ==> r[i] == LowerChar(s[i])
  {
    seq(|s|, i requires 0 <= i < |s| => LowerChar(s[i]))
  }

  /** The upper-case partner of an ASCII lower-case letter. */
  function UpperChar(c: char): char
    requires 'a' <= c <= 'z'
  {
    (c as int - 32) as char
  }

  /** A word of ASCII lower-case letters, like the command words. */
  predicate IsLowerWord(w: string) {
    forall i :: 0 <= i < |w| ==> 'a' <= w[i] <= 'z'
  }

  /** `s` spells the lower-case word `w` with each letter in either case. */
  predicate MatchesIgnoringCase(s: string, w: string)
    requires IsLowerWord(w)
  {
    |s| == |w| && forall i :: 0 <= i < |s| ==> s[i] == w[i] || s[i] == UpperChar(w[i])
  }

  /** Case-insensitive comparison: `s.lower() == w` for a lower-case word
      `w` exactly when `s` spells `w` with any mix of cases, and nothing
      else lower-cases to it. */
  lemma LowerMatchesIgnoringCase(s: string, w: string)
    requires IsLowerWord(w)
    ensures Lower(s) == w <==> MatchesIgnoringCase(s, w)
  {
    if Lower(s) == w {
      forall i | 0 <= i < |s|
        ensures s[i] == w[i] || s[i] == UpperChar(w[i])
      {
        assert LowerChar(s[i]) == w[i];
      }
    }
    if MatchesIgnoringCase(s, w) {
      assert forall i :: 0 <= i < |s| ==> Lower(s)[i] == w[i];
    }
  }

  /** `replace('×', '*').replace('÷', '/')`, one character at a time. */
  function Unglyph(c: char): char {
    if c == '×' then '*' else if c == '÷' then '/' else c
  }

  function ReplaceGlyphs(s: string): (r: string)
    ensures |r| == |s|
    ensures forall i :: 0 <= i < |s| ==> r[i] == Unglyph(s[i])
    ensures GlyphFree(r)
  {
    seq(|s|, i requires 0 <= i < |s| => Unglyph(s[i]))
  }

  /** Python's `str.split()` with no argument: split on runs of whitespace,
      dropping empty words. Every word is a token. */
  function Split(s: string): (ws: seq<string>)
    ensures AllTokens(ws)
    decreases |s|
  {
    if s == [] then []
    else if IsSpace(s[0]) then Split(s[1..])
    else
      var n := WordLength(s);
      assert IsToken(s[..n]);
      assert ([s[..n]] + Split(s[n..]))[1..] == Split(s[n..]);
      [s[..n]] + Split(s[n..])
  }

  /** `Split` loses nothing but whitespace: the words, concatenated, are
      exactly the non-whitespace characters of `s`, in order. */
  lemma {:induction false} SplitKeepsNonSpace(s: string)
    ensures Concat(Split(s)) == NonSpace(s)
    decreases |s|
  {
    if s == [] {
    } else if IsSpace(s[0]) {
      SplitKeepsNonSpace(s[1..]);
    } else {
      var n := WordLength(s);
      var w, rest := s[..n], s[n..];
      SliceJoin(s, n);
      NonSpaceSplits(w, rest);
      NonSpaceOfToken(w);
      SplitKeepsNonSpace(rest);
      ConcatCons(w, Split(rest));
    }
  }

  lemma ConcatCons(w: string, ws: seq<string>)
    ensures Concat([w] + ws) == w + Concat(ws)
  {
    assert ([w] + ws)[1..] == ws;
  }

  lemma SliceJoin(s: string, n: nat)
    requires n <= |s|
    ensures s[..n] + s[n..] == s
  {
  }

  lemma {:induction false} NonSpaceOfToken(w: string)
    requires forall i :: 0 <= i < |w| ==> !IsSpace(w[i])
    ensures NonSpace(w) == w
    decreases |w|
  {
    if w != [] {
      NonSpaceOfToken(w[1..]);
      assert [w[0]] + w[1..] == w;
    }
  }

  lemma {:induction false} NonSpaceSplits(a: string, b: string)
    ensures NonSpace(a + b) == NonSpace(a) + NonSpace(b)
    decreases |a|
  {
    if a != [] {
      assert (a + b)[1..] == a[1..] + b;
      NonSpaceSplits(a[1..], b);
    } else {
      assert a + b == b;
    }
  }

  /** Leading whitespace does not change how a line splits. */
  lemma SplitSkipsLeadingSpace(c: char, s: string)
    requires IsSpace(c)
    ensures Split([c] + s) == Split(s)
  {
    assert ([c] + s)[1..] == s;
  }

  /** A token followed by whitespace (or nothing) is split off as the first
      word. */
  lemma SplitOfLeadingToken(w: string, rest: string)
    requires IsToken(w)
    requires rest == [] || IsSpace(rest[0])
    ensures Split(w + rest) == [w] + Split(rest)
  {
    var s := w + rest;
    assert s[0] == w[0];
    WordLengthOfToken(w, rest);
    assert s[..|w|] == w;
    assert s[|w|..] == rest;
  }

  /** `WordLength` stops exactly at the end of a token followed by
      whitespace. */
  lemma {:induction false} WordLengthOfToken(w: string, rest: string)
    requires forall i :: 0 <= i < |w| ==> !IsSpace(w[i])
    requires rest == [] || IsSpace(rest[0])
    ensures WordLength(w + rest) == |w|
    decreases |w|
  {
    if w == [] {
      assert w + rest == rest;
    } else {
      assert (w + rest)[1..] == w[1..] + rest;
      WordLengthOfToken(w[1..], rest);
    }
  }

  lemma SplitOfToken(w: string)
    requires IsToken(w)
    ensures Split(w) == [w]
  {
    SplitOfLeadingToken(w, []);
    assert w + [] == w;
  }

  /** Round trip: splitting tokens joined by single spaces gives the tokens
      back. */
  lemma {:induction false} SplitJoinWords(ws: seq<string>)
    requires AllTokens(ws)
    ensures Split(JoinWords(ws)) == ws
    decreases |ws|
  {
    if ws == [] {
    } else if |ws| == 1 {
      SplitOfToken(ws[0]);
    } else {
      SplitJoinWords(ws[1..]);
      SplitJoinCons(ws);
    }
  }

  /** One step of the round trip: a first token in front of words that
      already split back. */
  lemma SplitJoinCons(ws: seq<string>)
    requires |ws| >= 2 && IsToken(ws[0])
    requires Split(JoinWords(ws[1..])) == ws[1..]
    ensures Split(JoinWords(ws)) == ws
  {
    var tail := JoinWords(ws[1..]);
    assert JoinWords(ws) == ws[0] + ([' '] + tail);
    SplitOfLeadingToken(ws[0], [' '] + tail);
    SplitSkipsLeadingSpace(' ', tail);
    assert [ws[0]] + ws[1..] == ws;
  }

  /** `LeadingSpaces` counts exactly a whitespace prefix that is followed by
      a non-whitespace character or by nothing. */
  lemma {:induction false} LeadingSpacesOfMargin(pre: string, s: string)
    requires AllSpace(pre)
    requires s == [] || !IsSpace(s[0])
    ensures LeadingSpaces(pre + s) == |pre|
    decreases |pre|
  {
    if pre == [] {
      assert pre + s == s;
    } else {
      assert (pre + s)[1..] == pre[1..] + s;
      LeadingSpacesOfMargin(pre[1..], s);
    }
  }

  lemma {:induction false} TrailingSpacesOfMargin(s: string, post: string)
    requires AllSpace(post)
    requires s == [] || !IsSpace(s[|s| - 1])
    ensures TrailingSpaces(s + post) == |post|
    decreases |post|
  {
    if post == [] {
      assert s + post == s;
    } else {
      var p := post[..|post| - 1];
      assert (s + post)[..|s + post| - 1] == s + p;
      TrailingSpacesOfMargin(s, p);
    }
  }

  /** `Strip` removes exactly the whitespace margins: a core that neither
      starts nor ends with whitespace survives unchanged, whatever
      whitespace surrounds it. */
  lemma StripRemovesMargins(pre: string, core: string, post: string)
    requires AllSpace(pre) && AllSpace(post)
    requires core == [] || (!IsSpace(core[0]) && !IsSpace(core[|core| - 1]))
    ensures Strip(pre + core + post) == core
  {
    var s := pre + core + post;
    if core == [] {
      assert s == (pre + post) + [];
      assert AllSpace(pre + post);
      LeadingSpacesOfMargin(pre + post, []);
      assert s[|s|..] == [];
    } else {
      assert s == pre + (core + post);
      LeadingSpacesOfMargin(pre, core + post);
      assert s[|pre|..] == core + post;
      TrailingSpacesOfMargin(core, post);
      assert s[|pre|..|s| - |post|] == core;
    }
  }

  /** `Strip` is idempotent. */
  lemma StripIdempotent(s: string)
    ensures Strip(Strip(s)) == Strip(s)
  {
    var r := Strip(s);
    StripRemovesMargins([], r, []);
    assert [] + r + [] == r;
  }

  /** `s` holds neither `×` nor `÷`. */
  predicate GlyphFree(s: string) {
    forall i :: 0 <= i < |s| ==> s[i] != '×' && s[i] != '÷'
  }

  /** A string without `×` or `÷` is left alone by the glyph rewrite. */
  lemma ReplaceGlyphsWithoutGlyphs(s: string)
    requires GlyphFree(s)
    ensures ReplaceGlyphs(s) == s
  {
  }

  /** The glyph rewrite works piece by piece. */
  lemma ReplaceGlyphsConcat(a: string, b: string)
    ensures ReplaceGlyphs(a + b) == ReplaceGlyphs(a) + ReplaceGlyphs(b)
  {
    var l, r := ReplaceGlyphs(a + b), ReplaceGlyphs(a) + ReplaceGlyphs(b);
    forall i | 0 <= i < |l|
      ensures l[i] == r[i]
    {
      if i >= |a| { assert (a + b)[i] == b[i - |a|]; }
    }
  }

  /** The rewrite turns a token into a token: `*` and `/` are no whitespace. */
  lemma ReplaceGlyphsOfToken(w: string)
    requires IsToken(w)
    ensures IsToken(ReplaceGlyphs(w))
  {
    var r := ReplaceGlyphs(w);
    forall i | 0 <= i < |r|
      ensures !IsSpace(r[i])
    {
      assert r[i] == Unglyph(w[i]);
    }
  }

  /** Gluing glyph-free pieces keeps the result glyph-free. */
  lemma GlyphFreeConcat(a: string, b: string)
    requires GlyphFree(a) && GlyphFree(b)
    ensures GlyphFree(a + b)
  {
    forall i | 0 <= i < |a + b|
      ensures (a + b)[i] != '×' && (a + b)[i] != '÷'
    {
      if i >= |a| { assert (a + b)[i] == b[i - |a|]; }
    }
  }

  /** A token followed by a space starts with a token `p` exactly when the
      token itself does: `p` cannot reach across the space. */
  lemma PrefixOfSpacedToken(x: string, rest: string, p: string)
    requires IsToken(x) && IsToken(p)
    ensures StartsWith(x + " " + rest, p) <==> StartsWith(x, p)
  {
    var s := x + " " + rest;
    if |p| <= |x| {
      assert s[..|p|] == x[..|p|];
    } else if |p| <= |s| {
      assert s[..|p|][|x|] == ' ' != p[|x|];
    }
  }

  /** Three tokens separated by single spaces split back into the three. */
  lemma SplitThreeTokens(x: string, op: string, y: string)
    requires IsToken(x) && IsToken(op) && IsToken(y)
    ensures Split(x + " " + op + " " + y) == [x, op, y]
  {
    var ws := [x, op, y];
    assert ws[1..] == [op, y] && ws[1..][1..] == [y];
    assert AllTokens([y]) by { assert [y][1..] == []; }
    assert AllTokens(ws[1..]);
    assert JoinWords([y]) == y;
    assert JoinWords(ws[1..]) == op + ([' '] + y);
    assert JoinWords(ws) == x + ([' '] + (op + ([' '] + y)));
    assert x + " " + op + " " + y == x + ([' '] + (op + ([' '] + y)));
    SplitJoinWords(ws);
  }
}
