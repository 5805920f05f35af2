/**
 The string operations the bot's handlers apply to incoming message text:
 Python's `str.strip()`, `str.lower()` and `str.split()` (with no arguments),
 on Dafny strings (sequences of Unicode scalar values).
 */
module Text {

  /** Python's `str.isspace()` for one character: the characters with
      bidirectional class WS, B or S, or general category Zs. This is the set
      that `strip()` and `split()` (with no arguments) treat as whitespace. */
  predicate IsSpace(c: char) {
    var n := c as int;
    || 0x09 <= n <= 0x0D
    || 0x1C <= n <= 0x20
    || n == 0x85 || n == 0xA0 || n == 0x1680
    || 0x2000 <= n <= 0x200A
    || n == 0x2028 || n == 0x2029 || n == 0x202F || n == 0x205F || n == 0x3000
  }

  predicate AllSpace(s: string) {
    forall i :: 0 <= i < |s| ==> IsSpace(s[i])
  }

  /** A string with no whitespace at either end: what `strip()` returns. */
  predicate Trimmed(s: string) {
    s == [] || (!IsSpace(s[0]) && !IsSpace(s[|s| - 1]))
  }

  /** The number of whitespace characters at the start of `s`. */
  function LeadingSpaces(s: string): (n: nat)
    ensures n <= |s|
    ensures forall i :: 0 <= i < n ==> IsSpace(s[i])
    ensures n == |s| || !IsSpace(s[n])
  {
    if |s| > 0 && IsSpace(s[0]) then 1 + LeadingSpaces(s[1..]) else 0
  }

  /** The number of whitespace characters at the end of `s`. */
  function TrailingSpaces(s: string): (n: nat)
    ensures n <= |s|
    ensures forall i :: |s| - n <= i < |s| ==> IsSpace(s[i])
    ensures n == |s| || !IsSpace(s[|s| - 1 - n])
  {
    if |s| > 0 && IsSpace(s[|s| - 1]) then 1 + TrailingSpaces(s[..|s| - 1]) else 0
  }

  /** `str.lstrip()`: the suffix that remains once the leading whitespace is gone. */
  function TrimLeft(s: string): (r: string)
    ensures r == [] || !IsSpace(r[0])
  {
    s[LeadingSpaces(s)..]
  }

  /** `str.rstrip()`: the prefix that remains once the trailing whitespace is gone. */
  function TrimRight(s: string): (r: string)
    ensures r == [] || !IsSpace(r[|r| - 1])
  {
    s[..|s| - TrailingSpaces(s)]
  }

  /** `str.strip()`. */
  function Strip(s: string): (r: string)
    ensures Trimmed(r)
    ensures |r| <= |s|
  {
    TrimRight(TrimLeft(s))
  }

  /** Whitespace on the left of a string is exactly what `lstrip()` drops. */
  lemma {:induction false} LeadingSpacesPadded(w: string, x: string)
    requires AllSpace(w)
    ensures LeadingSpaces(w + x) == |w| + LeadingSpaces(x)
  {
    if w == [] {
      assert w + x == x;
    } else {
      assert (w + x)[0] == w[0];
      assert (w + x)[1..] == w[1..] + x;
      LeadingSpacesPadded(w[1..], x);
    }
  }

  /** Whitespace on the right of a string is exactly what `rstrip()` drops. */
  lemma {:induction false} TrailingSpacesPadded(x: string, w: string)
    requires AllSpace(w)
    ensures TrailingSpaces(x + w) == TrailingSpaces(x) + |w|
  {
    if w == [] {
      assert x + w == x;
    } else {
      var w' := w[..|w| - 1];
      assert (x + w)[|x + w| - 1] == w[|w| - 1];
      assert (x + w)[..|x + w| - 1] == x + w';
      TrailingSpacesPadded(x, w');
    }
  }

  lemma TrimLeftPadded(w: string, x: string)
    requires AllSpace(w)
    ensures TrimLeft(w + x) == TrimLeft(x)
  {
    LeadingSpacesPadded(w, x);
    assert (w + x)[|w| + LeadingSpaces(x)..] == x[LeadingSpaces(x)..];
  }

  lemma TrimRightPadded(x: string, w: string)
    requires AllSpace(w)
    ensures TrimRight(x + w) == TrimRight(x)
  {
    TrailingSpacesPadded(x, w);
    assert (x + w)[..|x| - TrailingSpaces(x)] == x[..|x| - TrailingSpaces(x)];
  }

  /** `strip()` removes whitespace padding on both sides and nothing else. */
  lemma StripPadded(w1: string, x: string, w2: string)
    requires AllSpace(w1) && AllSpace(w2) && Trimmed(x)
    ensures Strip(w1 + x + w2) == x
  {
    assert w1 + x + w2 == w1 + (x + w2);
    TrimLeftPadded(w1, x + w2);
    if x == [] {
      assert x + w2 == w2 == [] + w2;
      TrimLeftPadded(w2, []);
      assert TrimLeft(x + w2) == [];
    } else {
      assert TrimLeft(x + w2) == x + w2;
    }
    TrimRightPadded(x, w2);
  }

  /** A string that already has no whitespace at its ends is left alone. */
  lemma StripTrimmed(x: string)
    requires Trimmed(x)
    ensures Strip(x) == x
  {
    StripPadded([], x, []);
    assert [] + x + [] == x;
  }

  /** `strip()` is idempotent. */
  lemma StripIdempotent(s: string)
    ensures Strip(Strip(s)) == Strip(s)
  {
    StripTrimmed(Strip(s));
  }

  /** `strip()` yields the empty string exactly for whitespace-only text. */
  lemma StripEmptyIffAllSpace(s: string)
    ensures Strip(s) == [] <==> AllSpace(s)
  {
    if AllSpace(s) {
      StripPadded(s, [], []);
      assert s + [] + [] == s;
    }
  }

  /** `str.lower()` on one character. Only the ASCII letters A-Z are folded. */
  function LowerChar(c: char): (d: char)
    ensures 'A' <= c <= 'Z' ==> d as int == c as int + 32 && 'a' <= d <= 'z'
    ensures !('A' <= c <= 'Z') ==> d == c
  {
    if 'A' <= c <= 'Z' then (c as int + 32) as char else c
  }

  /** `str.lower()`, folding ASCII letters (non-ASCII letters are kept as they are). */
  function Lower(s: string): (r: string)
    ensures |r| == |s|
  {
    if s == [] then [] else [LowerChar(s[0])] + Lower(s[1..])
  }

  /** Lower-casing works character by character. */
  lemma {:induction false} LowerAt(s: string, i: nat)
    requires i < |s|
    ensures Lower(s)[i] == LowerChar(s[i])
  {
    if i > 0 {
      LowerAt(s[1..], i - 1);
    }
  }

  /** Lower-casing is idempotent. */
  lemma LowerIdempotent(s: string)
    ensures Lower(Lower(s)) == Lower(s)
  {
    forall i | 0 <= i < |s| ensures Lower(Lower(s))[i] == Lower(s)[i] {
      LowerAt(s, i);
      LowerAt(Lower(s), i);
    }
  }

  /** Lower-casing changes no whitespace character, so it keeps a string trimmed. */
  lemma LowerKeepsTrimmed(s: string)
    requires Trimmed(s)
    ensures Trimmed(Lower(s))
  {
    if s != [] {
      LowerAt(s, 0);
      LowerAt(s, |s| - 1);
    }
  }

  /** The normal form the duplicate-message filter compares: `text.strip().lower()`. */
  function Normalize(text: string): (r: string)
    ensures Trimmed(r)
    ensures |r| <= |text|
  {
    LowerKeepsTrimmed(Strip(text));
    Lower(Strip(text))
  }

  /** Normalising twice gives the same text as normalising once. */
  lemma NormalizeIdempotent(text: string)
    ensures Normalize(Normalize(text)) == Normalize(text)
  {
    var n := Normalize(text);
    StripTrimmed(n);
    LowerIdempotent(Strip(text));
  }

  /** Text with a non-whitespace character has a non-empty normal form, so it
      never matches the empty entry of a user not seen before. */
  lemma NormalizeNonBlank(text: string)
    requires !AllSpace(text)
    ensures Normalize(text) != []
  {
    StripEmptyIffAllSpace(text);
  }

  /** Surrounding whitespace does not matter to the normal form. */
  lemma NormalizePadded(w1: string, x: string, w2: string)
    requires AllSpace(w1) && AllSpace(w2) && Trimmed(x)
    ensures Normalize(w1 + x + w2) == Lower(x)
  {
    StripPadded(w1, x, w2);
  }

  /** Lower-casing maps whitespace to whitespace and nothing else to it. */
  lemma LowerCharSpace(c: char)
    ensures IsSpace(LowerChar(c)) <==> IsSpace(c)
  {
  }

  /** Lower-casing commutes with dropping a prefix. */
  lemma {:induction false} LowerSuffix(s: string, n: nat)
    requires n <= |s|
    ensures Lower(s[n..]) == Lower(s)[n..]
  {
    if n == 0 {
      assert s[n..] == s;
    } else {
      assert s[n..] == s[1..][n - 1..];
      LowerSuffix(s[1..], n - 1);
    }
  }

  /** Lower-casing commutes with taking a prefix. */
  lemma LowerPrefix(s: string, n: nat)
    requires n <= |s|
    ensures Lower(s[..n]) == Lower(s)[..n]
  {
    var a, b := Lower(s[..n]), Lower(s)[..n];
    forall k | 0 <= k < |a| ensures a[k] == b[k] {
      LowerAt(s[..n], k);
      LowerAt(s, k);
    }
  }

  /** Lower-casing keeps every character's whitespace class. */
  lemma LowerSpaceAt(s: string, i: nat)
    requires i < |s|
    ensures IsSpace(Lower(s)[i]) <==> IsSpace(s[i])
  {
    LowerAt(s, i);
    LowerCharSpace(s[i]);
  }

  /** Lower-casing keeps the amount of whitespace at the start. */
  lemma LowerLeadingSpaces(s: string)
    ensures LeadingSpaces(Lower(s)) == LeadingSpaces(s)
  {
    var n, m := LeadingSpaces(s), LeadingSpaces(Lower(s));
    if m < n { LowerSpaceAt(s, m); }
    if n < m { LowerSpaceAt(s, n); }
  }

  /** Lower-casing keeps the amount of whitespace at the end. */
  lemma LowerTrailingSpaces(s: string)
    ensures TrailingSpaces(Lower(s)) == TrailingSpaces(s)
  {
    var n, m := TrailingSpaces(s), TrailingSpaces(Lower(s));
    if m < n { LowerSpaceAt(s, |s| - 1 - m); }
    if n < m { LowerSpaceAt(s, |s| - 1 - n); }
  }

  /** `lstrip()` and lower-casing can be done in either order. */
  lemma TrimLeftLower(s: string)
    ensures TrimLeft(Lower(s)) == Lower(TrimLeft(s))
  {
    LowerLeadingSpaces(s);
    LowerSuffix(s, LeadingSpaces(s));
  }

  /** `rstrip()` and lower-casing can be done in either order. */
  lemma TrimRightLower(s: string)
    ensures TrimRight(Lower(s)) == Lower(TrimRight(s))
  {
    LowerTrailingSpaces(s);
    LowerPrefix(s, |s| - TrailingSpaces(s));
  }

  /** Stripping and lower-casing can be done in either order. */
  lemma StripLower(s: string)
    ensures Strip(Lower(s)) == Lower(Strip(s))
  {
    TrimLeftLower(s);
    TrimRightLower(TrimLeft(s));
  }

  /** Case does not matter to the normal form. */
  lemma NormalizeLower(text: string)
    ensures Normalize(Lower(text)) == Normalize(text)
  {
    StripLower(text);
    LowerIdempotent(Strip(text));
  }

  /** One token of `str.split()`: a non-empty run of non-whitespace characters. */
  predicate IsToken(t: string) {
    |t| > 0 && forall i :: 0 <= i < |t| ==> !IsSpace(t[i])
  }

  /** The length of the longest whitespace-free prefix of `s`. */
  function TokenLen(s: string): (n: nat)
    ensures n <= |s|
    ensures forall i :: 0 <= i < n ==> !IsSpace(s[i])
    ensures n == |s| || IsSpace(s[n])
  {
    if |s| == 0 || IsSpace(s[0]) then 0 else 1 + TokenLen(s[1..])
  }

  /** `str.split()` with no arguments: the maximal runs of non-whitespace
      characters, in order; runs of whitespace separate them and never
      produce an empty token. */
  function Split(s: string): (r: seq<string>)
    ensures AllTokens(r)
    decreases |s|
  {
    if |s| == 0 then []
    else if IsSpace(s[0]) then Split(s[1..])
    else
      var n := TokenLen(s);
      [s[..n]] + Split(s[n..])
  }

  predicate AllTokens(ts: seq<string>) {
    forall i :: 0 <= i < |ts| ==> IsToken(ts[i])
  }

  /** Tokens joined with single spaces: a message a user could type. */
  function Join(ts: seq<string>): string {
    if |ts| == 0 then []
    else if |ts| == 1 then ts[0]
    else ts[0] + " " + Join(ts[1..])
  }

  /** Leading whitespace contributes no token. */
  lemma {:induction false} SplitPadded(w: string, s: string)
    requires AllSpace(w)
    ensures Split(w + s) == Split(s)
  {
    if w == [] {
      assert w + s == s;
    } else {
      assert (w + s)[0] == w[0];
      assert (w + s)[1..] == w[1..] + s;
      SplitPadded(w[1..], s);
    }
  }

  /** Text made only of whitespace has no tokens. */
  lemma SplitAllSpace(w: string)
    requires AllSpace(w)
    ensures Split(w) == []
  {
    SplitPadded(w, []);
    assert w + [] == w;
  }

  /** A token followed by a whitespace character (or by nothing) is split off whole. */
  lemma SplitToken(t: string, rest: string)
    requires IsToken(t)
    requires rest == [] || IsSpace(rest[0])
    ensures Split(t + rest) == [t] + Split(rest)
  {
    var s := t + rest;
    var n := TokenLen(s);
    assert forall i :: 0 <= i < |t| ==> s[i] == t[i];
    assert rest != [] ==> s[|t|] == rest[0];
    assert s[..n] == t;
    assert s[n..] == rest;
  }

  /** `split()` recovers the tokens joined by single spaces. */
  lemma {:induction false} SplitJoin(ts: seq<string>)
    requires AllTokens(ts)
    ensures Split(Join(ts)) == ts
  {
    if |ts| == 1 {
      SplitToken(ts[0], []);
      assert ts[0] + [] == ts[0];
    } else if |ts| > 1 {
      var rest := " " + Join(ts[1..]);
      assert Join(ts) == ts[0] + rest;
      SplitToken(ts[0], rest);
      assert rest == " " + Join(ts[1..]);
      SplitPadded(" ", Join(ts[1..]));
      SplitJoin(ts[1..]);
      assert ts == [ts[0]] + ts[1..];
    }
  }
}
