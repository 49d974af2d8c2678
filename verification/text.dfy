/**
 * The few Python `str` operations the service relies on, restricted to ASCII:
 * `lower()`, `strip()`, `split()` with no argument, and `str(n)` for a
 * non-negative integer. Non-ASCII letters are not case-folded and non-ASCII
 * whitespace (U+0085, U+00A0, ...) is not treated as whitespace.
 */
module Text {

  /** `c.isspace()` on ASCII: space, \t \n \v \f \r and the separators \x1c-\x1f. */
  predicate IsSpace(c: char)
  {
    var n := c as int;
    n == 32 || 9 <= n <= 13 || 28 <= n <= 31
  }

  function LowerChar(c: char): char
  {
    if 'A' <= c <= 'Z' then (c as int + 32) as char else c
  }

  /** `s.lower()`. */
  function Lower(s: string): (r: string)
    ensures |r| == |s|
    ensures forall i :: 0 <= i < |s| ==> r[i] == LowerChar(s[i])
  {
    seq(|s|, i requires 0 <= i < |s| => LowerChar(s[i]))
  }

  /** Lower-casing twice is lower-casing once. */
  lemma LowerIdempotent(s: string)
    ensures Lower(Lower(s)) == Lower(s)
  {
  }

  /** A string with no white space in it and at least one character. */
  predicate IsWord(w: string)
  {
    w != [] && forall i :: 0 <= i < |w| ==> !IsSpace(w[i])
  }

  /** Every character is white space (the empty string included). */
  predicate IsBlank(s: string)
  {
    forall i :: 0 <= i < |s| ==> IsSpace(s[i])
  }

  /**
   * The end of the run that starts at `i` of characters that are white space
   * (when `space`) or are not (otherwise).
   */
  function RunEnd(s: string, i: nat, space: bool): (e: nat)
    requires i <= |s|
    ensures i <= e <= |s|
    ensures forall j :: i <= j < e ==> IsSpace(s[j]) == space
    ensures e < |s| ==> IsSpace(s[e]) != space
    decreases |s| - i
  {
    if i == |s| || IsSpace(s[i]) != space then i else RunEnd(s, i + 1, space)
  }

  /** A run ends exactly where the characters stop matching. */
  lemma RunEndIs(s: string, i: nat, space: bool, e: nat)
    requires i <= e <= |s|
    requires forall j :: i <= j < e ==> IsSpace(s[j]) == space
    requires e < |s| ==> IsSpace(s[e]) != space
    ensures RunEnd(s, i, space) == e
  {
  }

  /** The end of `s[..n]` once trailing white space is dropped. */
  function TrimEnd(s: string, n: nat): (e: nat)
    requires n <= |s|
    ensures e <= n
    ensures forall j :: e <= j < n ==> IsSpace(s[j])
    ensures e > 0 ==> !IsSpace(s[e - 1])
  {
    if n == 0 || !IsSpace(s[n - 1]) then n else TrimEnd(s, n - 1)
  }

  /**
   * `s.strip()`: `s` without its leading and trailing white space. It is
   * empty exactly when `s` is blank, and otherwise starts and ends with a
   * character that is not white space.
   */
  function Strip(s: string): (r: string)
    ensures r == [] <==> IsBlank(s)
    ensures r != [] ==> !IsSpace(r[0]) && !IsSpace(r[|r| - 1])
    ensures |r| <= |s|
  {
    var lo := RunEnd(s, 0, true);
    if lo == |s| then []
    else
      var hi := TrimEnd(s, |s|);
      assert !IsSpace(s[lo]);
      s[lo..hi]
  }

  /** Stripping a string that has no white space at either end leaves it as it is. */
  lemma StripOfTrimmed(s: string)
    requires s != [] && !IsSpace(s[0]) && !IsSpace(s[|s| - 1])
    ensures Strip(s) == s
  {
    RunEndIs(s, 0, true, 0);
  }

  /** `s.split()`, from index `i`: the maximal runs of non-white-space characters, in order. */
  function SplitFrom(s: string, i: nat): (words: seq<string>)
    requires i <= |s|
    ensures forall k :: 0 <= k < |words| ==> IsWord(words[k])
    decreases |s| - i
  {
    var start := RunEnd(s, i, true);
    if start == |s| then []
    else
      var end := RunEnd(s, start, false);
      [s[start..end]] + SplitFrom(s, end)
  }

  /** `s.split()`. */
  function Split(s: string): seq<string>
  {
    SplitFrom(s, 0)
  }

  /** Two words joined by one space split back into exactly those two words. */
  lemma SplitTwoWords(a: string, b: string)
    requires IsWord(a) && IsWord(b)
    ensures Split(a + " " + b) == [a, b]
  {
    var s := a + " " + b;
    var n := |a|;
    assert forall j :: 0 <= j < n ==> s[j] == a[j];
    assert forall j :: n < j < |s| ==> s[j] == b[j - n - 1];
    RunEndIs(s, 0, true, 0);
    RunEndIs(s, 0, false, n);
    assert s[0..n] == a;
    RunEndIs(s, n, true, n + 1);
    RunEndIs(s, n + 1, false, |s|);
    assert s[n + 1..|s|] == b;
    RunEndIs(s, |s|, true, |s|);
    assert SplitFrom(s, n) == [b] + SplitFrom(s, |s|);
  }

  /** A blank string splits into no words. */
  lemma SplitOfBlank(s: string)
    requires IsBlank(s)
    ensures Split(s) == []
  {
    RunEndIs(s, 0, true, |s|);
  }

  function DigitChar(d: nat): (c: char)
    requires d < 10
    ensures '0' <= c <= '9'
  {
    "0123456789"[d]
  }

  /** `str(n)` for a non-negative integer: its decimal digits. */
  function NatToString(n: nat): (s: string)
    ensures s != []
    ensures forall i :: 0 <= i < |s| ==> '0' <= s[i] <= '9'
  {
    if n < 10 then [DigitChar(n)] else NatToString(n / 10) + [DigitChar(n % 10)]
  }

  /** `w` occurs in `s` starting at index `i`. */
  predicate OccursAt(w: string, s: string, i: int)
  {
    0 <= i <= |s| - |w| && s[i..i + |w|] == w
  }

  /** `w in s` for strings. */
  ghost predicate IsInfix(w: string, s: string)
  {
    exists i :: OccursAt(w, s, i)
  }
}
