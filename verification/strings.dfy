/** String operations of JavaScript and Python that the gateway code relies on, stated over `seq<char>`. */
module Strings {

  predicate StartsWith(s: string, prefix: string) {
    |prefix| <= |s| && s[..|prefix|] == prefix
  }

  predicate EndsWith(s: string, suffix: string) {
    |suffix| <= |s| && s[|s| - |suffix|..] == suffix
  }

  /** `s.indexOf(sub) !== -1` / `sub in s`. */
  predicate Contains(s: string, sub: string) {
    exists i | 0 <= i <= |s| - |sub| :: OccursAt(s, sub, i)
  }

  /** `sub` occurs in `s` starting at position `i`. */
  predicate OccursAt(s: string, sub: string, i: int) {
    0 <= i <= |s| - |sub| && s[i..i + |sub|] == sub
  }

  /** `s.indexOf(c)`: the first position of `c`, or -1. */
  function FirstIndex(s: string, c: char): (r: int)
    ensures -1 <= r < |s|
    ensures r == -1 <==> c !in s
    ensures r >= 0 ==> s[r] == c && c !in s[..r]
  {
    if s == [] then -1
    else if s[0] == c then 0
    else
      var k := FirstIndex(s[1..], c);
      if k == -1 then -1 else (assert s[..k + 1] == [s[0]] + s[1..][..k]; k + 1)
  }

  /** A position holding `c` with no `c` before it is the first index of `c`. */
  lemma {:induction false} FirstIndexAt(s: string, c: char, n: nat)
    requires n < |s| && s[n] == c && forall k :: 0 <= k < n ==> s[k] != c
    ensures FirstIndex(s, c) == n
  {
    if n > 0 {
      assert s[1..][n - 1] == c;
      FirstIndexAt(s[1..], c, n - 1);
    }
  }

  /** `s.lastIndexOf(c)`: the last position of `c`, or -1. */
  function LastIndex(s: string, c: char): (r: int)
    ensures -1 <= r < |s|
    ensures r == -1 <==> c !in s
    ensures r >= 0 ==> s[r] == c && c !in s[r + 1..]
  {
    if s == [] then -1
    else if s[|s| - 1] == c then |s| - 1
    else
      var k := LastIndex(s[..|s| - 1], c);
      assert s == s[..|s| - 1] + [s[|s| - 1]];
      if k == -1 then -1
      else (assert s[k + 1..] == s[..|s| - 1][k + 1..] + [s[|s| - 1]]; k)
  }

  /** `s.split(c)[0]`: the text before the first `c`, or all of `s`. */
  function Before(s: string, c: char): (r: string)
    ensures c !in r && StartsWith(s, r)
    ensures r == s || (|r| < |s| && s[|r|] == c)
  {
    var i := FirstIndex(s, c);
    if i == -1 then s else s[..i]
  }

  /** `s.split(c)` of JavaScript and Python, for a one-character separator. */
  function Split(s: string, c: char): (parts: seq<string>)
    ensures |parts| >= 1
    ensures forall k :: 0 <= k < |parts| ==> c !in parts[k]
    decreases |s|
  {
    var i := FirstIndex(s, c);
    if i == -1 then [s] else [s[..i]] + Split(s[i + 1..], c)
  }

  /** `parts.join(c)`, the inverse of `Split`. */
  function Join(parts: seq<string>, c: char): string
    requires |parts| >= 1
  {
    if |parts| == 1 then parts[0] else parts[0] + [c] + Join(parts[1..], c)
  }

  lemma {:induction false} JoinSplit(s: string, c: char)
    ensures Join(Split(s, c), c) == s
    decreases |s|
  {
    var i := FirstIndex(s, c);
    if i != -1 {
      var rest := Split(s[i + 1..], c);
      var parts := [s[..i]] + rest;
      assert Split(s, c) == parts;
      assert parts[1..] == rest;
      assert Join(parts, c) == s[..i] + [c] + Join(rest, c);
      JoinSplit(s[i + 1..], c);
      Reassemble(s, i);
    }
  }

  lemma Reassemble(s: string, i: nat)
    requires i < |s|
    ensures s[..i] + [s[i]] + s[i + 1..] == s
  {
  }

  /** `Split` undoes `Join` when no part contains the separator. */
  lemma {:induction false} SplitJoin(parts: seq<string>, c: char)
    requires |parts| >= 1 && forall k :: 0 <= k < |parts| ==> c !in parts[k]
    ensures Split(Join(parts, c), c) == parts
  {
    var s := Join(parts, c);
    if |parts| > 1 {
      var rest := Join(parts[1..], c);
      assert s == parts[0] + [c] + rest;
      forall k | 0 <= k < |parts[0]| ensures s[k] != c {
        assert s[k] == parts[0][k];
      }
      FirstIndexAt(s, c, |parts[0]|);
      assert s[..|parts[0]|] == parts[0];
      assert s[|parts[0]| + 1..] == rest;
      SplitJoin(parts[1..], c);
    }
  }

  // ---------------------------------------------------------------- digits

  predicate IsDigit(c: char) {
    '0' <= c <= '9'
  }

  predicate AllDigits(s: string) {
    forall i :: 0 <= i < |s| ==> IsDigit(s[i])
  }

  /** The value of a string of decimal digits (`parseInt(s, 10)` on such a string). */
  function DigitsValue(s: string): nat
    requires AllDigits(s)
  {
    if s == [] then 0 else DigitsValue(s[..|s| - 1]) * 10 + (s[|s| - 1] - '0') as nat
  }

  function DigitChar(d: nat): char
    requires d < 10
  {
    ('0' as int + d) as char
  }

  /** The decimal rendering of `n` (`String(n)` / `str(n)`), without leading zeros. */
  function NatToString(n: nat): (s: string)
    ensures |s| >= 1 && AllDigits(s)
    ensures |s| > 1 ==> s[0] != '0'
  {
    if n < 10 then [DigitChar(n)] else NatToString(n / 10) + [DigitChar(n % 10)]
  }

  lemma {:induction false} NatToStringValue(n: nat)
    ensures DigitsValue(NatToString(n)) == n
  {
    if n >= 10 {
      NatToStringValue(n / 10);
      var s := NatToString(n);
      assert s[..|s| - 1] == NatToString(n / 10);
    }
  }

  lemma NatToStringNoDot(n: nat)
    ensures '.' !in NatToString(n) && ':' !in NatToString(n) && '/' !in NatToString(n)
  {
    var s := NatToString(n);
    forall i | 0 <= i < |s| ensures s[i] != '.' && s[i] != ':' && s[i] != '/' {
      assert IsDigit(s[i]);
    }
  }

  // ---------------------------------------------------------------- case

  function LowerChar(c: char): char {
    if 'A' <= c <= 'Z' then (c as int + 32) as char else c
  }

  /** `s.toLowerCase()`, for the ASCII letters. */
  function ToLower(s: string): (r: string)
    ensures |r| == |s| && forall i :: 0 <= i < |s| ==> r[i] == LowerChar(s[i])
  {
    seq(|s|, i requires 0 <= i < |s| => LowerChar(s[i]))
  }

  predicate IsLower(s: string) {
    forall i :: 0 <= i < |s| ==> !('A' <= s[i] <= 'Z')
  }

  // ---------------------------------------------------------------- whitespace

  /** The characters JavaScript's `trim()` and `\s` treat as white space. */
  predicate JsSpace(c: char) {
    c in {' ', '\t', '\n', '\r', '\U{B}', '\U{C}', '\U{A0}', '\U{FEFF}', '\U{1680}', '\U{2028}', '\U{2029}',
          '\U{202F}', '\U{205F}', '\U{3000}'}
    || '\U{2000}' <= c <= '\U{200A}'
  }

  /** The characters Python's `str.strip()`, `str.split()` and `int()` treat as white space. */
  predicate PySpace(c: char) {
    c in {' ', '\t', '\n', '\r', '\U{B}', '\U{C}', '\U{1C}', '\U{1D}', '\U{1E}', '\U{1F}', '\U{85}', '\U{A0}',
          '\U{1680}', '\U{2028}', '\U{2029}', '\U{202F}', '\U{205F}', '\U{3000}'}
    || '\U{2000}' <= c <= '\U{200A}'
  }

  /** `s` without the longest prefix and suffix whose characters satisfy `space`. */
  function Strip(s: string, space: char -> bool): (r: string)
    ensures |r| <= |s|
  {
    if s == [] then s
    else if space(s[0]) then Strip(s[1..], space)
    else if space(s[|s| - 1]) then Strip(s[..|s| - 1], space)
    else s
  }

  /**
   * What stripping leaves: no white space at either end, a contiguous part of the input, and nothing at all
   * only when the input was white space throughout.
   */
  lemma StripSpec(s: string, space: char -> bool)
    ensures var r := Strip(s, space);
      && (r == [] || (!space(r[0]) && !space(r[|r| - 1])))
      && Contains(s, r)
      && (r == [] ==> forall i :: 0 <= i < |s| ==> space(s[i]))
  {
    StripEnds(s, space);
    var lo := StripWindow(s, space);
    assert OccursAt(s, Strip(s, space), lo);
  }

  lemma {:induction false} StripEnds(s: string, space: char -> bool)
    ensures var r := Strip(s, space);
      r == [] || (!space(r[0]) && !space(r[|r| - 1]))
  {
    if s != [] {
      if space(s[0]) {
        StripEnds(s[1..], space);
      } else if space(s[|s| - 1]) {
        StripEnds(s[..|s| - 1], space);
        assert |s| > 1 ==> s[..|s| - 1][0] == s[0];
      }
    }
  }

  lemma SliceOfTail(s: string, l: nat, n: nat)
    requires 1 + l + n <= |s|
    ensures s[1..][l..l + n] == s[l + 1..l + 1 + n]
  {
    var a, b := s[1..][l..l + n], s[l + 1..l + 1 + n];
    forall k | 0 <= k < n ensures a[k] == b[k] {
      assert s[1..][l + k] == s[l + 1 + k];
    }
  }

  lemma SliceOfInit(s: string, lo: nat, n: nat)
    requires lo + n < |s|
    ensures s[..|s| - 1][lo..lo + n] == s[lo..lo + n]
  {
    var a, b := s[..|s| - 1][lo..lo + n], s[lo..lo + n];
    forall k | 0 <= k < n ensures a[k] == b[k] {
      assert s[..|s| - 1][lo + k] == s[lo + k];
    }
  }

  /** Where the stripped text sits in the input: from `lo` on; and it is empty only for all-space input. */
  lemma {:induction false} StripWindow(s: string, space: char -> bool) returns (lo: nat)
    ensures lo + |Strip(s, space)| <= |s| && s[lo..lo + |Strip(s, space)|] == Strip(s, space)
    ensures Strip(s, space) == [] ==> forall i :: 0 <= i < |s| ==> space(s[i])
  {
    var r := Strip(s, space);
    if s == [] {
      lo := 0;
    } else if space(s[0]) {
      var l := StripWindow(s[1..], space);
      lo := l + 1;
      SliceOfTail(s, l, |r|);
      if r == [] {
        forall k | 0 <= k < |s| ensures space(s[k]) {
          if k > 0 { assert s[k] == s[1..][k - 1]; }
        }
      }
    } else if space(s[|s| - 1]) {
      lo := StripWindow(s[..|s| - 1], space);
      SliceOfInit(s, lo, |r|);
      assert |s| > 1 ==> s[..|s| - 1][0] == s[0];
    } else {
      lo := 0;
      assert s[0..|s|] == s;
    }
  }

  /** JavaScript's `s.trim()`. */
  function JsTrim(s: string): string {
    Strip(s, JsSpace)
  }

  /** Python's `s.strip()`. */
  function PyStrip(s: string): string {
    Strip(s, PySpace)
  }

  /** JavaScript's `s.replace(/\s+/g, '')`: every white-space character removed. */
  function RemoveJsSpace(s: string): (r: string)
    ensures |r| <= |s|
    ensures forall i :: 0 <= i < |r| ==> !JsSpace(r[i])
    ensures forall c :: c in s && !JsSpace(c) ==> c in r
  {
    if s == [] then []
    else if JsSpace(s[0]) then RemoveJsSpace(s[1..])
    else [s[0]] + RemoveJsSpace(s[1..])
  }

  /** Python's `s.split()` with no argument: the maximal runs of non-space characters. */
  function PyWords(s: string): (words: seq<string>)
    ensures forall k :: 0 <= k < |words| ==> words[k] != [] && forall i :: 0 <= i < |words[k]| ==> !PySpace(words[k][i])
    decreases |s|
  {
    var t := PyStrip(s);
    if t == [] then []
    else
      StripSpec(s, PySpace);
      var n := WordLength(t);
      [t[..n]] + PyWords(t[n..])
  }

  /** The length of the leading run of non-space characters of `t`. */
  function WordLength(t: string): (n: nat)
    ensures n <= |t|
    ensures forall i :: 0 <= i < n ==> !PySpace(t[i])
    ensures n < |t| ==> PySpace(t[n])
    ensures |t| > 0 && !PySpace(t[0]) ==> n > 0
  {
    if t == [] || PySpace(t[0]) then 0 else 1 + WordLength(t[1..])
  }
}
