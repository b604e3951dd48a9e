/**
 * Character-level helpers the controller relies on: Python's `str(n)` for
 * non-negative integers, `str.find` for one character, `startswith` /
 * `endswith`, and the Windows flavour of `os.path.join` (ntpath).
 */
module Text {

  predicate IsDigit(c: char) {
    '0' <= c <= '9'
  }

  function DigitChar(d: nat): (c: char)
    requires d < 10
    ensures IsDigit(c)
  {
    (48 + d) as char
  }

  function DigitValue(c: char): (d: nat)
    requires IsDigit(c)
    ensures d < 10
  {
    (c as int) - 48
  }

  /** Python's `str(n)` for a non-negative integer: the decimal digits, no leading zero. */
  function NatToString(n: nat): (s: string)
    ensures |s| >= 1
    ensures forall i :: 0 <= i < |s| ==> IsDigit(s[i])
    ensures |s| > 1 ==> s[0] != '0'
    decreases n
  {
    if n < 10 then [DigitChar(n)] else NatToString(n / 10) + [DigitChar(n % 10)]
  }

  /** The value a string of decimal digits denotes (the reader's side of `str`). */
  function DecimalValue(s: string): nat
    requires forall i :: 0 <= i < |s| ==> IsDigit(s[i])
  {
    if s == [] then 0 else DecimalValue(s[..|s| - 1]) * 10 + DigitValue(s[|s| - 1])
  }

  lemma {:induction false} DecimalRoundTrip(n: nat)
    ensures DecimalValue(NatToString(n)) == n
    decreases n
  {
    if n >= 10 {
      var s := NatToString(n);
      assert s[..|s| - 1] == NatToString(n / 10);
      DecimalRoundTrip(n / 10);
    }
  }

  /** Distinct numbers print differently, so a pid written into a name identifies it. */
  lemma NatToStringInjective(m: nat, n: nat)
    requires NatToString(m) == NatToString(n)
    ensures m == n
  {
    DecimalRoundTrip(m);
    DecimalRoundTrip(n);
  }

  predicate StartsWith(s: string, prefix: string) {
    |prefix| <= |s| && s[..|prefix|] == prefix
  }

  predicate EndsWith(s: string, suffix: string) {
    |suffix| <= |s| && s[|s| - |suffix|..] == suffix
  }

  /** A suffix of a suffix is a suffix. */
  lemma EndsWithTrans(s: string, u: string, v: string)
    requires EndsWith(s, u) && EndsWith(u, v)
    ensures EndsWith(s, v)
  {
    assert s[|s| - |v|..] == s[|s| - |u|..][|u| - |v|..];
  }

  /** Python's `s.find(c)`: the first index of `c`, or -1 when it does not occur. */
  function IndexOf(s: string, c: char): (r: int)
    ensures -1 <= r < |s|
    ensures r >= 0 ==> s[r] == c && c !in s[..r]
    ensures r == -1 <==> c !in s
  {
    if s == [] then -1
    else if s[0] == c then 0
    else
      var t := IndexOf(s[1..], c);
      assert t >= 0 ==> s[..t + 1] == [s[0]] + s[1..][..t];
      if t < 0 then -1 else t + 1
  }

  /** The first occurrence of `c` is the index `IndexOf` finds. */
  lemma IndexOfFirst(s: string, c: char, i: nat)
    requires i < |s| && s[i] == c && c !in s[..i]
    ensures IndexOf(s, c) == i
  {
  }

  predicate IsSeparator(c: char) {
    c == '\\' || c == '/'
  }

  /** A second component that ntpath.join keeps on its own: rooted, or carrying a drive. */
  predicate IsAbsolute(p: string) {
    (|p| >= 1 && IsSeparator(p[0])) || (|p| >= 2 && p[1] == ':')
  }

  /** `os.path.join(a, b)` on Windows, for the shapes used here. */
  function PathJoin(a: string, b: string): (r: string)
    ensures EndsWith(r, b)
    ensures !IsAbsolute(b) ==> StartsWith(r, a)
    ensures IsAbsolute(b) || a == [] ==> r == b
    ensures !IsAbsolute(b) && a != [] && IsSeparator(a[|a| - 1]) ==> r == a + b
    ensures !IsAbsolute(b) && a != [] && !IsSeparator(a[|a| - 1]) ==> r == a + "\\" + b
  {
    if IsAbsolute(b) || a == [] then b
    else if IsSeparator(a[|a| - 1]) then a + b
    else a + "\\" + b
  }
}
