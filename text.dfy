/** The Python string operations the core relies on: str.isspace, str.strip, str.startswith,
    str.endswith, slicing s[:n], the `in` substring test, str.lower (ASCII letters only),
    len(str.split()), str(int) and `<` on str. Strings are sequences of Unicode scalar values, as in Python. */
module Text {

  /** Python's str.isspace for a single character: the characters str.split() and str.strip()
      treat as whitespace. */
  predicate IsSpace(c: char) {
    || c == ' '
    || ('\t' <= c <= '\r')
    || ('\U{1c}' <= c <= '\U{1f}')
    || c == '\U{85}' || c == '\U{a0}' || c == '\U{1680}'
    || ('\U{2000}' <= c <= '\U{200a}')
    || c == '\U{2028}' || c == '\U{2029}' || c == '\U{202f}' || c == '\U{205f}' || c == '\U{3000}'
  }

  /** s.lstrip(): the longest suffix of s that does not start with whitespace. */
  function TrimStart(s: string): (r: string)
    ensures |r| <= |s| && r == s[|s| - |r|..]
    ensures r == [] || !IsSpace(r[0])
    ensures forall i :: 0 <= i < |s| - |r| ==> IsSpace(s[i])
  {
    if |s| > 0 && IsSpace(s[0]) then TrimStart(s[1..]) else s
  }

  /** s.rstrip(): the longest prefix of s that does not end with whitespace. */
  function TrimEnd(s: string): (r: string)
    ensures |r| <= |s| && r == s[..|r|]
    ensures r == [] || !IsSpace(r[|r| - 1])
    ensures forall i :: |r| <= i < |s| ==> IsSpace(s[i])
  {
    if |s| > 0 && IsSpace(s[|s| - 1]) then TrimEnd(s[..|s| - 1]) else s
  }

  /** s.strip() */
  function Strip(s: string): string {
    TrimEnd(TrimStart(s))
  }

  predicate NoEdgeSpace(s: string) {
    s == [] || (!IsSpace(s[0]) && !IsSpace(s[|s| - 1]))
  }

  predicate AllSpace(s: string) {
    forall i :: 0 <= i < |s| ==> IsSpace(s[i])
  }

  /** strip() removes exactly the surrounding whitespace. */
  lemma {:induction false} StripSurrounded(pre: string, x: string, post: string)
    requires AllSpace(pre) && AllSpace(post) && NoEdgeSpace(x)
    ensures Strip(pre + x + post) == x
  {
    if x == [] {
      assert pre + x + post == pre + post;
      assert AllSpace(pre + post);
      return;
    }
    TrimStartSpaces(pre, x + post);
    assert TrimStart(pre + x + post) == TrimStart(pre + (x + post)) by {
      assert pre + x + post == pre + (x + post);
    }
    TrimEndSpaces(x, post);
  }

  lemma {:induction false} TrimStartSpaces(pre: string, rest: string)
    requires AllSpace(pre) && (rest == [] || !IsSpace(rest[0]))
    ensures TrimStart(pre + rest) == rest
  {
    if pre != [] {
      assert (pre + rest)[1..] == pre[1..] + rest;
      TrimStartSpaces(pre[1..], rest);
    }
  }

  lemma {:induction false} TrimEndSpaces(x: string, post: string)
    requires AllSpace(post) && NoEdgeSpace(x)
    ensures TrimEnd(x + post) == x
  {
    if post != [] {
      var p := post[..|post| - 1];
      assert (x + post)[..|x + post| - 1] == x + p;
      TrimEndSpaces(x, p);
    } else {
      assert x + post == x;
    }
  }

  /** s.startswith(p) */
  predicate StartsWith(s: string, p: string) {
    |p| <= |s| && s[..|p|] == p
  }

  /** s.endswith(p) */
  predicate EndsWith(s: string, p: string) {
    |p| <= |s| && s[|s| - |p|..] == p
  }

  /** s[:n] for a non-negative n. */
  function Take(s: string, n: nat): (r: string)
    ensures |r| == if |s| <= n then |s| else n
    ensures r == s[..|r|]
  {
    if |s| <= n then s else s[..n]
  }

  /** w occurs in t at position i. */
  predicate MatchAt(t: string, w: string, i: int) {
    0 <= i <= |t| - |w| && t[i..i + |w|] == w
  }

  /** The meaning of Python's `w in t` on strings. */
  ghost predicate OccursIn(w: string, t: string) {
    exists i :: MatchAt(t, w, i)
  }

  /** `w in t`, searching from position i onwards. */
  function ContainsFrom(t: string, w: string, i: nat): (b: bool)
    requires i <= |t|
    ensures b <==> exists j :: i <= j && MatchAt(t, w, j)
    decreases |t| - i
  {
    if MatchAt(t, w, i) then true
    else if i + |w| >= |t| then false
    else ContainsFrom(t, w, i + 1)
  }

  /** `w in t` */
  function Contains(t: string, w: string): (b: bool)
    ensures b <==> OccursIn(w, t)
  {
    ContainsFrom(t, w, 0)
  }

  /** Upper-case ASCII letters become lower case; other characters are kept. */
  function LowerChar(c: char): char {
    if 'A' <= c <= 'Z' then (c as int + 32) as char else c
  }

  /** s.lower(), restricted to ASCII letters. */
  function Lower(s: string): (r: string)
    ensures |r| == |s| && forall i :: 0 <= i < |s| ==> r[i] == LowerChar(s[i])
  {
    seq(|s|, i requires 0 <= i < |s| => LowerChar(s[i]))
  }

  /** Position i starts a word: a non-space character that is the first one or follows a space. */
  predicate WordStartAt(s: string, i: int)
    requires 0 <= i < |s|
  {
    !IsSpace(s[i]) && (i == 0 || IsSpace(s[i - 1]))
  }

  /** The number of word starts among the first n positions of s. */
  function WordStartsBelow(s: string, n: nat): nat
    requires n <= |s|
  {
    if n == 0 then 0 else WordStartsBelow(s, n - 1) + (if WordStartAt(s, n - 1) then 1 else 0)
  }

  /** len(s.split()), computed in one left-to-right pass; `inWord` says whether the
      character before s was a non-space character. */
  function CountWords(s: string, inWord: bool): (n: nat)
    ensures n <= |s|
    ensures AllSpace(s) ==> n == 0
    decreases |s|
  {
    if s == [] then 0
    else if IsSpace(s[0]) then CountWords(s[1..], false)
    else (if inWord then 0 else 1) + CountWords(s[1..], true)
  }

  /** len(s.split()): never more words than characters, and none in a blank text. */
  function WordCount(s: string): (n: nat)
    ensures n <= |s|
    ensures AllSpace(s) ==> n == 0
  {
    CountWords(s, false)
  }

  /** The one-pass count is the number of word starts: maximal runs of non-space characters. */
  lemma {:induction false} WordCountIsWordStarts(s: string)
    ensures WordCount(s) == WordStartsBelow(s, |s|)
  {
    CountWordsSuffix(s, |s|);
  }

  lemma {:induction false} CountWordsSuffix(s: string, k: nat)
    requires k <= |s|
    ensures WordStartsBelow(s, |s|) ==
            WordStartsBelow(s, |s| - k)
            + CountWords(s[|s| - k..], |s| - k > 0 && !IsSpace(s[|s| - k - 1]))
    decreases k
  {
    var n := |s| - k;
    if k == 0 {
      assert s[n..] == [];
    } else {
      CountWordsSuffix(s, k - 1);
      var t := s[n..];
      assert t[0] == s[n];
      assert t[1..] == s[n + 1..];
    }
  }

  function DigitChar(d: nat): char
    requires d < 10
  {
    ('0' as int + d) as char
  }

  /** str(n) for a non-negative integer. */
  function NatToString(n: nat): (r: string)
    ensures |r| >= 1 && forall i :: 0 <= i < |r| ==> '0' <= r[i] <= '9'
    ensures r[0] == '0' ==> n == 0
  {
    if n < 10 then [DigitChar(n)] else NatToString(n / 10) + [DigitChar(n % 10)]
  }

  /** str(n) for any integer. */
  function IntToString(n: int): string {
    if n < 0 then "-" + NatToString(-n) else NatToString(n)
  }
  /** Python's `a < b` on str: code point by code point, a proper prefix first. */
  predicate LexLess(a: string, b: string)
    decreases |a|
  {
    if a == [] then b != []
    else if b == [] then false
    else if a[0] != b[0] then a[0] < b[0]
    else LexLess(a[1..], b[1..])
  }

  lemma {:induction false} LexLessIrreflexive(a: string)
    ensures !LexLess(a, a)
    decreases |a|
  {
    if a != [] {
      LexLessIrreflexive(a[1..]);
    }
  }

  lemma {:induction false} LexLessTotal(a: string, b: string)
    requires a != b
    ensures LexLess(a, b) || LexLess(b, a)
    decreases |a|
  {
    if a != [] && b != [] && a[0] == b[0] {
      assert a == [a[0]] + a[1..] && b == [b[0]] + b[1..];
      LexLessTotal(a[1..], b[1..]);
    }
  }

  lemma {:induction false} LexLessTransitive(a: string, b: string, c: string)
    requires LexLess(a, b) && LexLess(b, c)
    ensures LexLess(a, c)
    decreases |a|
  {
    if a != [] && a[0] == b[0] && b[0] == c[0] {
      LexLessTransitive(a[1..], b[1..], c[1..]);
    }
  }

  lemma {:induction false} LexLessAsymmetric(a: string, b: string)
    requires LexLess(a, b)
    ensures !LexLess(b, a)
    decreases |a|
  {
    if a != [] && a[0] == b[0] {
      LexLessAsymmetric(a[1..], b[1..]);
    }
  }

  /** A strict difference between prefixes of equal length decides the order, whatever follows. */
  lemma {:induction false} LexLessExtend(a: string, b: string, x: string, y: string)
    requires |a| == |b| && LexLess(a, b)
    ensures LexLess(a + x, b + y)
    decreases |a|
  {
    assert (a + x)[0] == a[0] && (b + y)[0] == b[0];
    if a[0] == b[0] {
      assert (a + x)[1..] == a[1..] + x && (b + y)[1..] == b[1..] + y;
      LexLessExtend(a[1..], b[1..], x, y);
    }
  }

  /** A common prefix does not change the order. */
  lemma {:induction false} LexLessPrefix(p: string, x: string, y: string)
    requires LexLess(x, y)
    ensures LexLess(p + x, p + y)
    decreases |p|
  {
    if p == [] {
      assert p + x == x && p + y == y;
    } else {
      assert (p + x)[0] == p[0] == (p + y)[0];
      assert (p + x)[1..] == p[1..] + x && (p + y)[1..] == p[1..] + y;
      LexLessPrefix(p[1..], x, y);
    }
  }
}
