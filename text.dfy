/**
 * The few Python string operations the scoring engine relies on:
 * `str.strip()`, `str.lower()` and the decimal rendering of an `int`
 * inside an f-string.
 */
module Text {

  /** Python's `str.isspace()` for a single character: the characters `str.strip()` removes. */
  predicate IsSpace(c: char) {
    || ('\U{9}' <= c <= '\U{D}')
    || ('\U{1C}' <= c <= '\U{20}')
    || c == '\U{85}' || c == '\U{A0}' || c == '\U{1680}'
    || ('\U{2000}' <= c <= '\U{200A}')
    || c == '\U{2028}' || c == '\U{2029}' || c == '\U{202F}' || c == '\U{205F}' || c == '\U{3000}'
  }

  /** Drops leading white space: the result is a suffix of `s` that does not start with a space. */
  function TrimStart(s: string): (r: string)
    ensures |r| <= |s| && r == s[|s| - |r|..]
    ensures r == [] || !IsSpace(r[0])
    ensures forall k :: 0 <= k < |s| - |r| ==> IsSpace(s[k])
  {
    if s != [] && IsSpace(s[0]) then TrimStart(s[1..]) else s
  }

  /** Drops trailing white space: the result is a prefix of `s` that does not end with a space. */
  function TrimEnd(s: string): (r: string)
    ensures |r| <= |s| && r == s[..|r|]
    ensures r == [] || !IsSpace(r[|r| - 1])
    ensures forall k :: |r| <= k < |s| ==> IsSpace(s[k])
  {
    if s != [] && IsSpace(s[|s| - 1]) then TrimEnd(s[..|s| - 1]) else s
  }

  /** Python's `s.strip()`. */
  function Strip(s: string): (r: string)
  {
    TrimEnd(TrimStart(s))
  }

  /** What `strip()` promises: a contiguous slice of `s`, with only white space cut at both ends. */
  lemma StripIsTrimmedSlice(s: string)
    ensures exists i, j {:trigger s[i..j]} ::
              && 0 <= i <= j <= |s| && Strip(s) == s[i..j]
              && (forall k :: 0 <= k < i ==> IsSpace(s[k]))
              && (forall k :: j <= k < |s| ==> IsSpace(s[k]))
    ensures Strip(s) == [] || (!IsSpace(Strip(s)[0]) && !IsSpace(Strip(s)[|Strip(s)| - 1]))
  {
    var t := TrimStart(s);
    var u := TrimEnd(t);
    assert Strip(s) == u;
    CutSlice(IsSpace, s, t, u);
  }

  /** Cutting a prefix and then a suffix of characters satisfying `p` leaves a slice of `s`. */
  lemma CutSlice(p: char -> bool, s: string, t: string, u: string)
    requires |t| <= |s| && t == s[|s| - |t|..]
    requires |u| <= |t| && u == t[..|u|]
    requires forall k :: 0 <= k < |s| - |t| ==> p(s[k])
    requires forall k :: |u| <= k < |t| ==> p(t[k])
    requires u == [] || (!p(t[0]) && !p(u[|u| - 1]))
    ensures exists i, j {:trigger s[i..j]} ::
              && 0 <= i <= j <= |s| && u == s[i..j]
              && (forall k :: 0 <= k < i ==> p(s[k]))
              && (forall k :: j <= k < |s| ==> p(s[k]))
    ensures u == [] || (!p(u[0]) && !p(u[|u| - 1]))
  {
    var i := |s| - |t|;
    var j := i + |u|;
    assert u == s[i..j];
    forall k | j <= k < |s| ensures p(s[k]) {
      assert s[k] == t[k - i];
    }
  }

  /** Python's `str.lower()` restricted to ASCII letters. */
  function LowerChar(c: char): (r: char)
  {
    if 'A' <= c <= 'Z' then (c as int - 'A' as int + 'a' as int) as char else c
  }

  function Lower(s: string): (r: string)
    ensures |r| == |s|
    ensures forall k :: 0 <= k < |s| ==> r[k] == LowerChar(s[k])
  {
    seq(|s|, k requires 0 <= k < |s| => LowerChar(s[k]))
  }

  /** Lower-casing twice is lower-casing once; a lower-case string is left as it is. */
  lemma LowerIdempotent(s: string)
    ensures Lower(Lower(s)) == Lower(s)
    ensures (forall k :: 0 <= k < |s| ==> !('A' <= s[k] <= 'Z')) ==> Lower(s) == s
  {
  }

  /** No upper-case ASCII letter survives lower-casing. */
  lemma LowerHasNoCapitals(s: string)
    ensures forall k :: 0 <= k < |Lower(s)| ==> !('A' <= Lower(s)[k] <= 'Z')
  {
    forall k | 0 <= k < |s| ensures !('A' <= Lower(s)[k] <= 'Z') {
      assert Lower(s)[k] == LowerChar(s[k]);
    }
  }

  /** A string with no white space at either end is its own `strip()`. */
  lemma StripUnchanged(s: string)
    requires s != [] ==> !IsSpace(s[0]) && !IsSpace(s[|s| - 1])
    ensures Strip(s) == s
  {
  }

  function DigitChar(d: nat): char
    requires d < 10
  {
    ('0' as int + d) as char
  }

  /** The decimal digits of `n`, as `str(n)` writes them for n >= 0. */
  function NatToString(n: nat): (r: string)
    ensures |r| >= 1
    ensures forall k :: 0 <= k < |r| ==> '0' <= r[k] <= '9'
    ensures |r| > 1 ==> r[0] != '0'
  {
    if n < 10 then [DigitChar(n)] else NatToString(n / 10) + [DigitChar(n % 10)]
  }

  /** `str(n)` for any Python int, as it appears in `f"... {n}"`. */
  function IntToString(n: int): (r: string)
    ensures |r| >= 1
    ensures (r[0] == '-') <==> n < 0
  {
    if n < 0 then "-" + NatToString(-n) else NatToString(n)
  }

  /** The value of a string of decimal digits: the reading `int(s)` gives it. */
  function DecimalValue(s: string): nat
    requires forall k :: 0 <= k < |s| ==> '0' <= s[k] <= '9'
  {
    if s == [] then 0 else 10 * DecimalValue(s[..|s| - 1]) + (s[|s| - 1] as int - '0' as int)
  }

  /** Reading back the rendering of `n` gives `n`. */
  lemma {:induction false} NatToStringRoundTrip(n: nat)
    ensures DecimalValue(NatToString(n)) == n
  {
    if n >= 10 {
      var r := NatToString(n);
      assert r[..|r| - 1] == NatToString(n / 10);
      assert r[|r| - 1] as int - '0' as int == n % 10;
      NatToStringRoundTrip(n / 10);
    }
  }
}
