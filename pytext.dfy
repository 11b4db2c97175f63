/** The Python string built-ins the streaming endpoint relies on:
    `str.isspace`, `str.strip()` and `str.split()`, both without arguments.
    Strings are sequences of Unicode code points, as Python 3's `str` is, so
    `len` is `|s|`. */
module PyText {

  /** The characters for which Python's `str.isspace()` holds. `strip()` and
      `split()` without arguments remove and split on exactly these. */
  predicate IsSpace(c: char) {
    || ('\U{9}' <= c <= '\U{D}')
    || ('\U{1C}' <= c <= ' ')
    || c == '\U{85}' || c == '\U{A0}' || c == '\U{1680}'
    || ('\U{2000}' <= c <= '\U{200A}')
    || c == '\U{2028}' || c == '\U{2029}' || c == '\U{202F}'
    || c == '\U{205F}' || c == '\U{3000}'
  }

  predicate AllSpace(s: string) {
    forall i :: 0 <= i < |s| ==> IsSpace(s[i])
  }

  predicate NoSpace(s: string) {
    forall i :: 0 <= i < |s| ==> !IsSpace(s[i])
  }

  /** The number of whitespace characters `s` starts with. */
  function LeadingSpace(s: string): (n: nat)
    ensures n <= |s| && AllSpace(s[..n])
    ensures n == |s| || !IsSpace(s[n])
  {
    if s == [] || !IsSpace(s[0]) then 0
    else
      var k := LeadingSpace(s[1..]);
      assert s[..k + 1] == [s[0]] + s[1..][..k];
      k + 1
  }

  /** The number of whitespace characters `s` ends with. */
  function TrailingSpace(s: string): (n: nat)
    ensures n <= |s| && AllSpace(s[|s| - n..])
    ensures n == |s| || !IsSpace(s[|s| - n - 1])
  {
    if s == [] || !IsSpace(s[|s| - 1]) then 0
    else
      var init := s[..|s| - 1];
      var k := TrailingSpace(init);
      assert s[|s| - (k + 1)..] == init[|init| - k..] + [s[|s| - 1]];
      k + 1
  }

  /** `s.strip()`: the longest infix of `s` that neither starts nor ends with
      whitespace, everything cut off on either side being whitespace. */
  function Strip(s: string): (r: string)
    ensures LeadingSpace(s) + |r| <= |s|
    ensures r == s[LeadingSpace(s)..LeadingSpace(s) + |r|]
    ensures AllSpace(s[..LeadingSpace(s)]) && AllSpace(s[LeadingSpace(s) + |r|..])
    ensures r != [] ==> !IsSpace(r[0]) && !IsSpace(r[|r| - 1])
    ensures r == [] <==> AllSpace(s)
  {
    var k := LeadingSpace(s);
    var t := s[k..];
    var m := TrailingSpace(t);
    var r := t[..|t| - m];
    assert r == s[k..k + |r|];
    assert s[k + |r|..] == t[|t| - m..];
    assert r == [] ==> AllSpace(s) by {
      if r == [] { AllSpaceJoin(s, k); }
    }
    assert r != [] ==> r[0] == s[k] && r[|r| - 1] == t[|t| - m - 1];
    r
  }

  /** Two whitespace-only pieces make a whitespace-only text. */
  lemma AllSpaceJoin(s: string, k: nat)
    requires k <= |s| && AllSpace(s[..k]) && AllSpace(s[k..])
    ensures AllSpace(s)
  {
    forall i | 0 <= i < |s| ensures IsSpace(s[i]) {
      if i < k { assert s[..k][i] == s[i]; } else { assert s[k..][i - k] == s[i]; }
    }
  }

  /** The length of the run of non-whitespace characters `s` starts with. */
  function WordLength(s: string): (n: nat)
    ensures n <= |s| && NoSpace(s[..n])
    ensures n == |s| || IsSpace(s[n])
  {
    if s == [] || IsSpace(s[0]) then 0
    else
      var k := WordLength(s[1..]);
      assert s[..k + 1] == [s[0]] + s[1..][..k];
      k + 1
  }

  /** `s.split()`: the maximal runs of non-whitespace characters, in order. */
  function Words(s: string): (ws: seq<string>)
    ensures |ws| <= |s|
    ensures forall w :: w in ws ==> w != [] && NoSpace(w)
    ensures ws == [] <==> AllSpace(s)
    decreases |s|
  {
    var t := s[LeadingSpace(s)..];
    if t == [] then
      assert s == s[..LeadingSpace(s)];
      []
    else
      var n := WordLength(t);
      [t[..n]] + Words(t[n..])
  }

  /** An independent count of the words of `s`: the number of non-whitespace
      characters that stand at the start of `s` (when `afterSpace`) or right
      after a whitespace character. */
  function WordStarts(s: string, afterSpace: bool): nat
  {
    if s == [] then 0
    else (if afterSpace && !IsSpace(s[0]) then 1 else 0) + WordStarts(s[1..], IsSpace(s[0]))
  }

  /** Whitespace never starts a word. */
  lemma {:induction false} SkipSpace(s: string, k: nat)
    requires k <= |s| && AllSpace(s[..k])
    ensures WordStarts(s, true) == WordStarts(s[k..], true)
  {
    if k > 0 {
      assert IsSpace(s[..k][0]);
      assert s[1..][..k - 1] == s[..k][1..];
      SkipSpace(s[1..], k - 1);
      assert s[1..][k - 1..] == s[k..];
    }
  }

  /** Inside a word nothing new starts. */
  lemma {:induction false} InsideWord(s: string, k: nat)
    requires k <= |s| && NoSpace(s[..k])
    ensures WordStarts(s, false) == WordStarts(s[k..], false)
  {
    if k > 0 {
      assert !IsSpace(s[..k][0]);
      assert s[1..][..k - 1] == s[..k][1..];
      InsideWord(s[1..], k - 1);
      assert s[1..][k - 1..] == s[k..];
    }
  }

  /** A word followed by whitespace counts once, before what follows. */
  lemma {:induction false} WordThenSpace(s: string, n: nat)
    requires 0 < n < |s| && NoSpace(s[..n]) && IsSpace(s[n])
    ensures WordStarts(s, true) == 1 + WordStarts(s[n + 1..], true)
  {
    assert !IsSpace(s[..n][0]);
    assert s[1..][..n - 1] == s[..n][1..];
    InsideWord(s[1..], n - 1);
    assert s[1..][n - 1..] == s[n..];
    assert s[n..][1..] == s[n + 1..];
  }

  /** A text without whitespace is one word. */
  lemma {:induction false} SingleWord(s: string)
    requires s != [] && NoSpace(s)
    ensures WordStarts(s, true) == 1
  {
    assert s[1..][..|s| - 1] == s[1..];
    InsideWord(s[1..], |s| - 1);
    assert s[1..][|s| - 1..] == [];
  }

  /** `len(s.split())` counts the word starts of `s`. */
  lemma {:induction false} WordCountIsWordStarts(s: string)
    ensures |Words(s)| == WordStarts(s, true)
    decreases |s|
  {
    var k := LeadingSpace(s);
    var t := s[k..];
    SkipSpace(s, k);
    if t != [] {
      var n := WordLength(t);
      var rest := t[n..];
      assert !IsSpace(t[0]);
      InsideWord(t[1..], n - 1);
      assert t[1..][..n - 1] == t[..n][1..];
      assert t[1..][n - 1..] == rest;
      assert WordStarts(rest, false) == WordStarts(rest, true);
      WordCountIsWordStarts(rest);
    }
  }

  /** Removing the whitespace around a text removes nothing from it but
      that whitespace: stripping twice is stripping once. */
  lemma StripIdempotent(s: string)
    ensures Strip(Strip(s)) == Strip(s)
  {
    var r := Strip(s);
    if r != [] {
      assert LeadingSpace(r) == 0;
      assert TrailingSpace(r) == 0;
      assert r[..|r|] == r;
    }
  }
}
