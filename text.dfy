/**
 * The handful of Python and JavaScript string operations the core relies on:
 * lower(), `in`, startswith(), replace(), strip(), split(), str.join and the
 * JavaScript String.prototype.trim().  Case mapping and isalnum() are modelled
 * on ASCII only; the whitespace sets are written out in full.
 */
module Text {

  /** Python's str.isspace(): the characters str.strip() and str.split() treat as blank. */
  predicate IsPySpace(c: char) {
    || ('\t' <= c <= '\r')
    || ('\U{1C}' <= c <= '\U{1F}')
    || c == ' ' || c == '\U{85}' || c == '\U{A0}' || c == '\U{1680}'
    || ('\U{2000}' <= c <= '\U{200A}')
    || c == '\U{2028}' || c == '\U{2029}' || c == '\U{202F}' || c == '\U{205F}' || c == '\U{3000}'
  }

  /** ECMAScript WhiteSpace and LineTerminator: what String.prototype.trim() removes. */
  predicate IsJsSpace(c: char) {
    || c == '\t' || c == '\n' || c == '\U{B}' || c == '\U{C}' || c == '\r' || c == ' '
    || c == '\U{A0}' || c == '\U{FEFF}' || c == '\U{1680}'
    || ('\U{2000}' <= c <= '\U{200A}')
    || c == '\U{2028}' || c == '\U{2029}' || c == '\U{202F}' || c == '\U{205F}' || c == '\U{3000}'
  }

  /** str.isalnum() on one character, ASCII letters and digits only. */
  predicate IsAlnum(c: char) {
    ('a' <= c <= 'z') || ('A' <= c <= 'Z') || ('0' <= c <= '9')
  }

  function LowerChar(c: char): (r: char)
    ensures !('A' <= r <= 'Z')
  {
    if 'A' <= c <= 'Z' then (c as int + 32) as char else c
  }

  /** str.lower() on ASCII. */
  function Lower(s: string): (r: string)
    ensures |r| == |s|
    ensures forall i :: 0 <= i < |s| ==> r[i] == LowerChar(s[i])
  {
    seq(|s|, i requires 0 <= i < |s| => LowerChar(s[i]))
  }

  lemma LowerIdempotent(s: string)
    ensures Lower(Lower(s)) == Lower(s)
  {
  }

  predicate StartsWith(s: string, prefix: string) {
    |prefix| <= |s| && s[..|prefix|] == prefix
  }

  lemma StartsWithAppend(s: string, t: string, prefix: string)
    requires StartsWith(s, prefix)
    ensures StartsWith(s + t, prefix)
  {
    assert (s + t)[..|prefix|] == s[..|prefix|];
  }

  lemma DiffersAt(s: string, prefix: string, i: nat)
    requires i < |s| && i < |prefix| && s[i] != prefix[i]
    ensures !StartsWith(s, prefix)
  {
    if |prefix| <= |s| {
      assert s[..|prefix|][i] == s[i];
    }
  }

  /** Python's `needle in s` for strings. */
  predicate Contains(s: string, needle: string) {
    exists i :: 0 <= i <= |s| && StartsWith(s[i..], needle)
  }

  lemma ContainsAt(s: string, needle: string, i: nat)
    requires i + |needle| <= |s| && s[i..i + |needle|] == needle
    ensures Contains(s, needle)
  {
    assert StartsWith(s[i..], needle);
  }

  lemma ContainsInfix(a: string, b: string, c: string)
    ensures Contains(a + b + c, b)
  {
    assert (a + b + c)[|a|..|a| + |b|] == b;
    ContainsAt(a + b + c, b, |a|);
  }

  /** str.replace(old, new): every non-overlapping occurrence, scanning left to right. */
  function ReplaceAll(s: string, pattern: string, replacement: string): (r: string)
    requires |pattern| > 0
    decreases |s|
  {
    if |s| < |pattern| then s
    else if s[..|pattern|] == pattern then replacement + ReplaceAll(s[|pattern|..], pattern, replacement)
    else [s[0]] + ReplaceAll(s[1..], pattern, replacement)
  }

  /** replace() leaves a string without the pattern as it is. */
  lemma {:induction false} ReplaceAllAbsent(s: string, pattern: string, replacement: string)
    requires |pattern| > 0 && !Contains(s, pattern)
    ensures ReplaceAll(s, pattern, replacement) == s
    decreases |s|
  {
    if |s| >= |pattern| {
      assert s[0..] == s;
      assert s[..|pattern|] != pattern;
      ReplaceAllAbsent(s[1..], pattern, replacement);
    }
  }

  /** An infix of an infix is an infix. */
  lemma ContainsTrans(s: string, t: string, u: string)
    requires Contains(s, t) && Contains(t, u)
    ensures Contains(s, u)
  {
    var i :| 0 <= i <= |s| && StartsWith(s[i..], t);
    var j :| 0 <= j <= |t| && StartsWith(t[j..], u);
    assert s[i..i + |t|] == t;
    assert t[j..j + |u|] == u;
    assert s[i + j..i + j + |u|] == t[j..j + |u|];
    ContainsAt(s, u, i + j);
  }

  /** Removes the longest prefix whose characters all satisfy `drop`. */
  function TrimStart(s: string, drop: char -> bool): (r: string)
    ensures |r| <= |s|
    ensures r == [] || !drop(r[0])
    ensures forall i :: 0 <= i < |s| - |r| ==> drop(s[i])
    decreases |s|
  {
    if |s| > 0 && drop(s[0]) then TrimStart(s[1..], drop) else s
  }

  /** Removes the longest suffix whose characters all satisfy `drop`. */
  function TrimEnd(s: string, drop: char -> bool): (r: string)
    ensures |r| <= |s|
    ensures r == [] || !drop(r[|r| - 1])
    ensures forall i :: |r| <= i < |s| ==> drop(s[i])
    decreases |s|
  {
    if |s| > 0 && drop(s[|s| - 1]) then TrimEnd(s[..|s| - 1], drop) else s
  }

  /** What TrimStart keeps is a suffix of its input; stated apart from the function, as it is seldom needed. */
  lemma {:induction false} TrimStartIsSuffix(s: string, drop: char -> bool)
    ensures TrimStart(s, drop) == s[|s| - |TrimStart(s, drop)|..]
    decreases |s|
  {
    if |s| > 0 && drop(s[0]) {
      TrimStartIsSuffix(s[1..], drop);
      assert s[1..][|s| - 1 - |TrimStart(s, drop)|..] == s[|s| - |TrimStart(s, drop)|..];
    }
  }

  /** What TrimEnd keeps is a prefix of its input. */
  lemma {:induction false} TrimEndIsPrefix(s: string, drop: char -> bool)
    ensures TrimEnd(s, drop) == s[..|TrimEnd(s, drop)|]
    decreases |s|
  {
    if |s| > 0 && drop(s[|s| - 1]) {
      TrimEndIsPrefix(s[..|s| - 1], drop);
      assert s[..|s| - 1][..|TrimEnd(s, drop)|] == s[..|TrimEnd(s, drop)|];
    }
  }

  function TrimBoth(s: string, drop: char -> bool): string {
    TrimEnd(TrimStart(s, drop), drop)
  }

  /** Neither end of a trimmed string can be trimmed further. */
  lemma TrimBothEnds(s: string, drop: char -> bool)
    ensures var r := TrimBoth(s, drop); r == [] || (!drop(r[0]) && !drop(r[|r| - 1]))
  {
    var t := TrimStart(s, drop);
    TrimEndIsPrefix(t, drop);
    var r := TrimEnd(t, drop);
    if r != [] {
      assert r[0] == t[0];
    }
  }

  /** str.strip() */
  function Strip(s: string): string {
    TrimBoth(s, IsPySpace)
  }

  /** str.rstrip() */
  function RStrip(s: string): string {
    TrimEnd(s, IsPySpace)
  }

  /** str.strip(c) for a single character c, as in `.strip("'")`. */
  function StripChar(s: string, c: char): string {
    TrimBoth(s, x => x == c)
  }

  /** String.prototype.trim() */
  function JsTrim(s: string): string {
    TrimBoth(s, IsJsSpace)
  }

  /** The longest prefix of `t` without Python whitespace. */
  function TakeWord(t: string): (w: string)
    ensures |w| <= |t| && w == t[..|w|]
    ensures forall i :: 0 <= i < |w| ==> !IsPySpace(w[i])
    ensures |w| == |t| || IsPySpace(t[|w|])
    ensures t != [] && !IsPySpace(t[0]) ==> |w| > 0
    decreases |t|
  {
    if t == [] || IsPySpace(t[0]) then [] else [t[0]] + TakeWord(t[1..])
  }

  /** str.split() with no separator: the maximal runs of non-whitespace. */
  function Split(s: string): (words: seq<string>)
    decreases |s|
  {
    var t := TrimStart(s, IsPySpace);
    if t == [] then []
    else
      assert !IsPySpace(t[0]);
      var w := TakeWord(t);
      assert 0 < |w| <= |t| <= |s|;
      [w] + Split(t[|w|..])
  }

  /** A string made only of whitespace has no words. */
  lemma {:induction false} SplitBlank(s: string)
    requires forall i :: 0 <= i < |s| ==> IsPySpace(s[i])
    ensures Split(s) == []
  {
    TrimStartIsSuffix(s, IsPySpace);
  }

  /** The first index at or after `from` holding `c`, or |s| when there is none. */
  function FindChar(s: string, c: char, from: nat): (r: nat)
    requires from <= |s|
    ensures from <= r <= |s|
    ensures r < |s| ==> s[r] == c
    ensures forall i :: from <= i < r ==> s[i] != c
    decreases |s| - from
  {
    if from == |s| then |s| else if s[from] == c then from else FindChar(s, c, from + 1)
  }

  /** Python's "sep".join(xs). */
  function Join(xs: seq<string>, sep: string): string
    decreases |xs|
  {
    if xs == [] then ""
    else if |xs| == 1 then xs[0]
    else Join(xs[..|xs| - 1], sep) + sep + xs[|xs| - 1]
  }

  /** A joined list begins with its first element. */
  lemma {:induction false} JoinStartsWithFirst(xs: seq<string>, sep: string)
    requires |xs| > 0
    ensures StartsWith(Join(xs, sep), xs[0])
    decreases |xs|
  {
    if |xs| > 1 {
      var init := xs[..|xs| - 1];
      JoinStartsWithFirst(init, sep);
      assert init[0] == xs[0];
      StartsWithAppend(Join(init, sep), sep + xs[|xs| - 1], xs[0]);
      assert Join(xs, sep) == Join(init, sep) + (sep + xs[|xs| - 1]);
    }
  }

  /** Joining two non-empty lists is joining each and putting one separator between them. */
  lemma {:induction false} JoinAppend(xs: seq<string>, ys: seq<string>, sep: string)
    requires |xs| > 0 && |ys| > 0
    ensures Join(xs + ys, sep) == Join(xs, sep) + sep + Join(ys, sep)
    decreases |ys|
  {
    var zs := xs + ys;
    if |ys| == 1 {
      assert zs[..|zs| - 1] == xs;
    } else {
      var init := ys[..|ys| - 1];
      assert zs[..|zs| - 1] == xs + init;
      JoinAppend(xs, init, sep);
    }
  }

  /** Every joined element occurs in the joined text. */
  lemma {:induction false} JoinContainsEach(xs: seq<string>, sep: string, k: nat)
    requires k < |xs|
    ensures Contains(Join(xs, sep), xs[k])
    decreases |xs|
  {
    var last := |xs| - 1;
    if last == 0 {
      ContainsInfix("", xs[0], "");
      assert "" + xs[0] + "" == xs[0];
    } else if k == last {
      ContainsInfix(Join(xs[..last], sep) + sep, xs[k], "");
      assert Join(xs[..last], sep) + sep + xs[k] + "" == Join(xs, sep);
    } else {
      JoinContainsEach(xs[..last], sep, k);
      var j :| 0 <= j <= |Join(xs[..last], sep)| && StartsWith(Join(xs[..last], sep)[j..], xs[k]);
      var t := Join(xs[..last], sep);
      assert Join(xs, sep) == t + (sep + xs[last]);
      assert Join(xs, sep)[j..j + |xs[k]|] == t[j..][..|xs[k]|];
      ContainsAt(Join(xs, sep), xs[k], j);
    }
  }

  /** The decimal digits of n, as JavaScript renders a non-negative integer. */
  function DecimalString(n: nat): (r: string)
    ensures |r| > 0
    ensures forall i :: 0 <= i < |r| ==> '0' <= r[i] <= '9'
    decreases n
  {
    var d := ['0' + (n % 10) as char];
    if n < 10 then d else DecimalString(n / 10) + d
  }

  /** Distinct numbers are rendered distinctly, so structural paths keep sibling positions apart. */
  lemma {:induction false} DecimalStringInjective(m: nat, n: nat)
    requires DecimalString(m) == DecimalString(n)
    ensures m == n
    decreases m
  {
    var a, b := DecimalString(m), DecimalString(n);
    assert a[|a| - 1] == '0' + (m % 10) as char;
    assert b[|b| - 1] == '0' + (n % 10) as char;
    assert m % 10 == n % 10;
    if m >= 10 && n >= 10 {
      assert a[..|a| - 1] == DecimalString(m / 10);
      assert b[..|b| - 1] == DecimalString(n / 10);
      DecimalStringInjective(m / 10, n / 10);
    }
  }
}
