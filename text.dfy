/** The small part of Python's string behaviour the core relies on, restricted to ASCII:
    character classes, `str.lower`, `str.split()` word counting, substring search and
    the decimal rendering of integers used by f-strings and `str(int)`. */
module Text {

  predicate IsAsciiUpper(c: char) { 'A' <= c <= 'Z' }

  predicate IsAsciiLower(c: char) { 'a' <= c <= 'z' }

  /** Python's whitespace for `str.split()` with no argument. */
  predicate IsSpace(c: char) {
    ('\U{9}' <= c <= '\U{D}') || ('\U{1C}' <= c <= '\U{20}') || c == '\U{85}' || c == '\U{A0}'
    || c == '\U{1680}' || ('\U{2000}' <= c <= '\U{200A}') || c == '\U{2028}' || c == '\U{2029}'
    || c == '\U{202F}' || c == '\U{205F}' || c == '\U{3000}'
  }

  function LowerChar(c: char): char {
    if IsAsciiUpper(c) then (c as int + 32) as char else c
  }

  /** `str.lower()` on the ASCII letters; every other character is kept. */
  function Lower(s: string): (r: string)
    ensures |r| == |s|
    ensures forall i :: 0 <= i < |s| ==> r[i] == LowerChar(s[i])
    ensures forall i :: 0 <= i < |s| ==> !IsAsciiUpper(r[i])
  {
    if s == [] then [] else [LowerChar(s[0])] + Lower(s[1..])
  }

  /** Python's `k in s` for strings: `k` occurs as a contiguous substring of `s`. */
  predicate Contains(s: string, k: string) {
    |k| <= |s| && (s[..|k|] == k || Contains(s[1..], k))
  }

  /** Where a contained string occurs. */
  lemma {:induction false} ContainsAt(s: string, k: string) returns (i: nat)
    requires Contains(s, k)
    ensures i + |k| <= |s| && s[i..i + |k|] == k
  {
    if s[..|k|] == k {
      i := 0;
    } else {
      var j := ContainsAt(s[1..], k);
      assert s[1..][j..j + |k|] == s[j + 1..j + 1 + |k|];
      i := j + 1;
    }
  }

  /** Where a string occurs, `in` finds it: the converse of `ContainsAt`. */
  lemma {:induction false} ContainsComplete(s: string, k: string, i: nat)
    requires i + |k| <= |s| && s[i..i + |k|] == k
    ensures Contains(s, k)
  {
    if i > 0 {
      assert s[1..][i - 1..i - 1 + |k|] == s[i..i + |k|];
      ContainsComplete(s[1..], k, i - 1);
    }
  }

  /** Every pair of adjacent characters of `s` belongs to `pairs`. */
  predicate PairsWithin(s: string, pairs: set<(char, char)>) {
    forall i :: 0 <= i < |s| - 1 ==> (s[i], s[i + 1]) in pairs
  }

  /** A string holding two adjacent characters that are never adjacent in `s` does
      not occur in `s`. */
  lemma {:induction false} NotContainsPair(s: string, pairs: set<(char, char)>, k: string, j: nat)
    requires PairsWithin(s, pairs)
    requires j + 1 < |k| && (k[j], k[j + 1]) !in pairs
    ensures !Contains(s, k)
  {
    if |k| <= |s| {
      assert s[..|k|][j] != k[j] || s[..|k|][j + 1] != k[j + 1] by {
        assert (s[j], s[j + 1]) in pairs;
      }
      NotContainsPair(s[1..], pairs, k, j);
    }
  }

  /** Position `i` starts a word: it is not whitespace and follows whitespace or the start. */
  predicate WordStart(s: string, i: int)
    requires 0 <= i < |s|
  {
    !IsSpace(s[i]) && (i == 0 || IsSpace(s[i - 1]))
  }

  /** `len(s.split())`: the number of maximal runs of non-whitespace characters. */
  function WordCount(s: string): nat {
    if s == [] then 0
    else WordCount(s[..|s| - 1]) + (if WordStart(s, |s| - 1) then 1 else 0)
  }

  /** A run of non-whitespace characters after the start or after whitespace is one
      more word. */
  lemma {:induction false} WordCountAppendWord(a: string, w: string)
    requires a == [] || IsSpace(a[|a| - 1])
    requires |w| > 0 && forall i :: 0 <= i < |w| ==> !IsSpace(w[i])
    ensures WordCount(a + w) == WordCount(a) + 1
  {
    var s := a + w;
    assert s[..|s| - 1] == a + w[..|w| - 1];
    if |w| > 1 {
      WordCountAppendWord(a, w[..|w| - 1]);
    }
  }

  /** Whitespace after a text adds no word. */
  lemma WordCountAppendSpace(a: string, c: char)
    requires IsSpace(c)
    ensures WordCount(a + [c]) == WordCount(a)
  {
    assert (a + [c])[..|a|] == a;
  }

  /** A text holding any non-whitespace character has at least one word. */
  lemma {:induction false} WordCountPositive(s: string, i: int)
    requires 0 <= i < |s| && !IsSpace(s[i])
    ensures WordCount(s) >= 1
  {
    var p := s[..|s| - 1];
    if i < |s| - 1 {
      assert p[i] == s[i];
      WordCountPositive(p, i);
    } else if i > 0 && !IsSpace(s[i - 1]) {
      assert p[i - 1] == s[i - 1];
      WordCountPositive(p, i - 1);
    }
  }

  /** A non-empty keyword whose first character is not whitespace, found in `s`,
      puts at least one word in `s`. */
  lemma ContainsWordStartsWord(s: string, k: string)
    requires |k| > 0 && !IsSpace(k[0]) && Contains(s, k)
    ensures WordCount(s) >= 1
  {
    var i := ContainsAt(s, k);
    assert s[i] == s[i..i + |k|][0] == k[0];
    WordCountPositive(s, i);
  }

  function DigitChar(d: nat): char
    requires d < 10
  {
    ('0' as int + d) as char
  }

  predicate IsDigit(c: char) { '0' <= c <= '9' }

  function DigitValue(c: char): nat
    requires IsDigit(c)
  {
    c as int - '0' as int
  }

  /** The numeric value of a string of decimal digits. */
  function DigitsValue(s: string): nat
    requires forall i :: 0 <= i < |s| ==> IsDigit(s[i])
  {
    if s == [] then 0
    else 10 * DigitsValue(s[..|s| - 1]) + DigitValue(s[|s| - 1])
  }

  /** `str(n)` for a natural number. */
  function NatToString(n: nat): (r: string)
    ensures |r| > 0
    ensures forall i :: 0 <= i < |r| ==> IsDigit(r[i])
  {
    if n < 10 then [DigitChar(n)] else NatToString(n / 10) + [DigitChar(n % 10)]
  }

  /** Rendering and reading back a natural number gives the number again, and the
      rendering has no leading zero. */
  lemma {:induction false} NatToStringRoundTrip(n: nat)
    ensures DigitsValue(NatToString(n)) == n
    ensures n > 0 ==> NatToString(n)[0] != '0'
  {
    if n >= 10 {
      var r := NatToString(n);
      NatToStringRoundTrip(n / 10);
      assert r[..|r| - 1] == NatToString(n / 10);
      assert r[0] == NatToString(n / 10)[0];
    }
  }

  /** `str(i)` for any integer: a minus sign before the digits of a negative number. */
  function IntToString(i: int): (r: string)
    ensures i >= 0 ==> r == NatToString(i)
    ensures i < 0 ==> r == "-" + NatToString(-i)
  {
    if i < 0 then "-" + NatToString(-i) else NatToString(i)
  }
}
