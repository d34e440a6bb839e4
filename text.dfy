/** The few string operations of Python's `str` that the downloaders rely on:
    `"-" * 80`, `strip()`, `lower()` and the decimal rendering of an `int` in an f-string. */
module Text {

  /** `[c] * n` in Python: the character `c` repeated `n` times. */
  function Repeat(c: char, n: nat): (r: string)
    ensures |r| == n
    ensures forall i :: 0 <= i < n ==> r[i] == c
  {
    seq(n, _ => c)
  }

  /** Python's `str.isspace` on one character: the characters whose bidirectional class is
      WS, B or S, or whose category is Zs. These are the characters `str.strip()` removes. */
  predicate IsSpace(c: char) {
    || c == ' ' || c == '\t' || c == '\n' || c == '\r'
    || c == '\U{000B}' || c == '\U{000C}'
    || ('\U{001C}' <= c <= '\U{001F}')
    || c == '\U{0085}' || c == '\U{00A0}' || c == '\U{1680}'
    || ('\U{2000}' <= c <= '\U{200A}')
    || c == '\U{2028}' || c == '\U{2029}' || c == '\U{202F}' || c == '\U{205F}' || c == '\U{3000}'
  }

  predicate IsBlank(s: string) {
    forall k :: 0 <= k < |s| ==> IsSpace(s[k])
  }

  /** Where `s.lstrip()` starts: the number of leading whitespace characters. */
  function ContentStart(s: string): (n: nat)
    ensures n <= |s|
    ensures forall k :: 0 <= k < n ==> IsSpace(s[k])
    ensures n < |s| ==> !IsSpace(s[n])
  {
    if s == [] || !IsSpace(s[0]) then 0 else 1 + ContentStart(s[1..])
  }

  /** Where `s[lo:hi].rstrip()` ends: the position after the last non-whitespace character
      of `s[lo..hi]`, or `lo` when there is none. */
  function ContentEnd(s: string, lo: nat, hi: nat): (j: nat)
    requires lo <= hi <= |s|
    ensures lo <= j <= hi
    ensures forall k :: j <= k < hi ==> IsSpace(s[k])
    ensures j > lo ==> !IsSpace(s[j - 1])
    decreases hi
  {
    if hi == lo || !IsSpace(s[hi - 1]) then hi else ContentEnd(s, lo, hi - 1)
  }

  /** `s.strip()`: the longest infix of `s` that neither starts nor ends with whitespace,
      everything cut away on either side being whitespace. */
  function Strip(s: string): (r: string)
    ensures exists i, j :: 0 <= i <= j <= |s| && r == s[i..j] && IsBlank(s[..i]) && IsBlank(s[j..])
    ensures r == [] || (!IsSpace(r[0]) && !IsSpace(r[|r| - 1]))
  {
    var i := ContentStart(s);
    var j := ContentEnd(s, i, |s|);
    assert IsBlank(s[..i]) by {
      forall k | 0 <= k < i ensures IsSpace(s[..i][k]) {
        assert s[..i][k] == s[k];
      }
    }
    assert IsBlank(s[j..]) by {
      forall k | 0 <= k < |s| - j ensures IsSpace(s[j..][k]) {
        assert s[j..][k] == s[j + k];
      }
    }
    s[i..j]
  }

  /** `not s.strip()` holds exactly for the strings made only of whitespace (the empty string included). */
  lemma StripEmptyIffBlank(s: string)
    ensures Strip(s) == [] <==> IsBlank(s)
  {
    var i := ContentStart(s);
    var j := ContentEnd(s, i, |s|);
    assert Strip(s) == s[i..j];
    if !IsBlank(s) {
      var k :| 0 <= k < |s| && !IsSpace(s[k]);
      assert i <= k < j;
    }
  }

  /** Stripping twice changes nothing more than stripping once. */
  lemma StripIdempotent(s: string)
    ensures Strip(Strip(s)) == Strip(s)
  {
    var r := Strip(s);
    if r != [] {
      assert ContentStart(r) == 0;
      assert ContentEnd(r, 0, |r|) == |r|;
      assert r[0..|r|] == r;
    }
  }

  /** ASCII `lower()` of one character; every other character is left as it is. */
  function LowerChar(c: char): char {
    if 'A' <= c <= 'Z' then (c as int - 'A' as int + 'a' as int) as char else c
  }

  function UpperChar(c: char): char {
    if 'a' <= c <= 'z' then (c as int - 'a' as int + 'A' as int) as char else c
  }

  /** `s.lower()`, restricted to ASCII letters. */
  function Lower(s: string): (r: string)
    ensures |r| == |s|
    ensures forall i :: 0 <= i < |s| ==> r[i] == LowerChar(s[i])
  {
    if s == [] then [] else [LowerChar(s[0])] + Lower(s[1..])
  }

  /** Lower-casing maps `c` onto an (ASCII) lower-case or non-letter `e` exactly when
      `c` is `e` itself or `e` in upper case. */
  lemma LowerCharPreimage(c: char, e: char)
    requires !('A' <= e <= 'Z')
    ensures LowerChar(c) == e <==> (c == e || c == UpperChar(e))
  {
  }

  /** A string lower-cases to `target` (which holds no upper-case letter) exactly when it
      spells `target` with any mix of letter cases. */
  lemma {:induction false} LowerMatchesCaseVariants(s: string, target: string)
    requires forall k :: 0 <= k < |target| ==> !('A' <= target[k] <= 'Z')
    ensures Lower(s) == target <==>
              (|s| == |target| && forall k :: 0 <= k < |s| ==> s[k] == target[k] || s[k] == UpperChar(target[k]))
  {
    if |s| == |target| {
      forall k | 0 <= k < |s|
        ensures LowerChar(s[k]) == target[k] <==> (s[k] == target[k] || s[k] == UpperChar(target[k]))
      {
        LowerCharPreimage(s[k], target[k]);
      }
      if forall k :: 0 <= k < |s| ==> s[k] == target[k] || s[k] == UpperChar(target[k]) {
        assert Lower(s) == target;
      }
    }
  }

  predicate IsDigit(c: char) {
    '0' <= c <= '9'
  }

  function DigitChar(d: nat): (c: char)
    requires d < 10
    ensures IsDigit(c) && c as int - '0' as int == d
  {
    ('0' as int + d) as char
  }

  /** The decimal digits of `n`, most significant first, with no leading zero: `str(n)`. */
  function NatToString(n: nat): (r: string)
    ensures r != []
    ensures forall k :: 0 <= k < |r| ==> IsDigit(r[k])
    ensures r[0] == '0' ==> n == 0
    decreases n
  {
    if n < 10 then [DigitChar(n)] else NatToString(n / 10) + [DigitChar(n % 10)]
  }

  /** The value of a string of decimal digits (Python's `int(s)` on such a string). */
  function DigitsValue(s: string): nat
    requires forall k :: 0 <= k < |s| ==> IsDigit(s[k])
  {
    if s == [] then 0
    else
      assert IsDigit(s[|s| - 1]);
      10 * DigitsValue(s[..|s| - 1]) + (s[|s| - 1] as int - '0' as int)
  }

  /** Reading back the digits recovers the number: `int(str(n)) == n`. */
  lemma {:induction false} NatToStringRoundTrip(n: nat)
    ensures DigitsValue(NatToString(n)) == n
    decreases n
  {
    if n >= 10 {
      NatToStringRoundTrip(n / 10);
      var s := NatToString(n);
      assert s[..|s| - 1] == NatToString(n / 10);
    }
  }

  /** `str(i)` for an `int` of any sign. */
  function IntToString(i: int): (r: string)
    ensures r != [] && (r[0] == '-' <==> i < 0)
  {
    if i < 0 then "-" + NatToString(-i) else NatToString(i)
  }

  /** `int(s)` for the strings `str(i)` produces. */
  function ParseInt(s: string): int
    requires s != []
    requires s[0] == '-' ==> forall k :: 1 <= k < |s| ==> IsDigit(s[k])
    requires s[0] != '-' ==> forall k :: 0 <= k < |s| ==> IsDigit(s[k])
  {
    if s[0] == '-' then -(DigitsValue(s[1..]) as int) else DigitsValue(s)
  }

  /** `int(str(i)) == i`: the decimal rendering of an `int` loses nothing, so two different
      codes always print differently. */
  lemma IntToStringRoundTrip(i: int)
    ensures ParseInt(IntToString(i)) == i
  {
    if i < 0 {
      NatToStringRoundTrip(-i);
      assert IntToString(i)[1..] == NatToString(-i);
    } else {
      NatToStringRoundTrip(i);
    }
  }
}
