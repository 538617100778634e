/**
 * The handful of Python string operations the modelled code relies on:
 * `str.startswith`, `str.split(sep)`, `str.strip()`, `str.replace` of one
 * character, and the `int()` conversion of a decimal string.
 */
module Strings {
  import opened Base

  /** `s.startswith(prefix)` */
  predicate StartsWith(s: string, prefix: string) {
    |prefix| <= |s| && s[..|prefix|] == prefix
  }

  /** Number of occurrences of `c` in `s`. */
  function Count(s: string, c: char): (n: nat)
    ensures n <= |s|
    ensures n == 0 <==> c !in s
  {
    if s == [] then 0
    else (if s[0] == c then 1 else 0) + Count(s[1..], c)
  }

  /** Index of the first occurrence of `c` in `s`. */
  function IndexOf(s: string, c: char): (i: nat)
    requires c in s
    ensures i < |s| && s[i] == c && c !in s[..i]
  {
    if s[0] == c then 0 else 1 + IndexOf(s[1..], c)
  }

  /** `s.split(sep)` for a one-character separator. */
  function Split(s: string, sep: char): (parts: seq<string>)
    ensures |parts| >= 1
    ensures forall k :: 0 <= k < |parts| ==> sep !in parts[k]
    decreases |s|
  {
    if sep !in s then [s]
    else
      var i := IndexOf(s, sep);
      [s[..i]] + Split(s[i + 1..], sep)
  }

  /** Occurrences in a concatenation add up. */
  lemma {:induction false} CountAppend(a: string, b: string, c: char)
    ensures Count(a + b, c) == Count(a, c) + Count(b, c)
  {
    if a != [] {
      assert (a + b)[0] == a[0] && (a + b)[1..] == a[1..] + b;
      CountAppend(a[1..], b, c);
    } else {
      assert a + b == b;
    }
  }

  /** Splitting yields one more part than there are separators. */
  lemma {:induction false} SplitCount(s: string, sep: char)
    ensures |Split(s, sep)| == Count(s, sep) + 1
    decreases |s|
  {
    if sep in s {
      var i := IndexOf(s, sep);
      assert s == s[..i] + [sep] + s[i + 1..];
      CountAppend(s[..i] + [sep], s[i + 1..], sep);
      CountAppend(s[..i], [sep], sep);
      SplitCount(s[i + 1..], sep);
    }
  }

  /** Splitting a string with exactly one separator gives the text on either side. */
  lemma SplitOnce(a: string, b: string, sep: char)
    requires sep !in a && sep !in b
    ensures Split(a + [sep] + b, sep) == [a, b]
  {
    var s := a + [sep] + b;
    assert s[|a|] == sep;
    var i := IndexOf(s, sep);
    assert i == |a|;
    assert s[..i] == a;
    assert s[i + 1..] == b;
  }

  /** Characters Python 2's `str.strip()` removes. */
  predicate IsSpace(c: char) {
    c == ' ' || c == '\t' || c == '\n' || c == '\r' || c == '\U{000B}' || c == '\U{000C}'
  }

  function LStrip(s: string): (r: string)
    ensures |r| <= |s| && r == s[|s| - |r|..]
    ensures r == [] || !IsSpace(r[0])
    ensures forall k :: 0 <= k < |s| - |r| ==> IsSpace(s[k])
  {
    if s != [] && IsSpace(s[0]) then LStrip(s[1..]) else s
  }

  function RStrip(s: string): (r: string)
    ensures |r| <= |s| && r == s[..|r|]
    ensures r == [] || !IsSpace(r[|r| - 1])
    ensures forall k :: |r| <= k < |s| ==> IsSpace(s[k])
  {
    if s != [] && IsSpace(s[|s| - 1]) then RStrip(s[..|s| - 1]) else s
  }

  /** `s.strip()`: drop leading and trailing whitespace. */
  function Strip(s: string): string {
    RStrip(LStrip(s))
  }

  predicate AllSpace(s: string) {
    forall k :: 0 <= k < |s| ==> IsSpace(s[k])
  }

  /** Stripping removes exactly the whitespace padding around a word that
      neither starts nor ends with whitespace. */
  lemma StripPadded(pre: string, x: string, post: string)
    requires AllSpace(pre) && AllSpace(post)
    requires x != [] && !IsSpace(x[0]) && !IsSpace(x[|x| - 1])
    ensures Strip(pre + x + post) == x
  {
    assert pre + x + post == pre + (x + post);
    assert (x + post)[0] == x[0];
    LStripPadded(pre, x + post);
    RStripPadded(x, post);
  }

  /** Leading whitespace before a word that does not start with whitespace
      is exactly what `LStrip` removes. */
  lemma LStripPadded(pre: string, x: string)
    requires AllSpace(pre) && x != [] && !IsSpace(x[0])
    ensures LStrip(pre + x) == x
  {
    var s := pre + x;
    var r := LStrip(s);
    assert s[|pre|] == x[0];
    assert |r| >= |x|;
  }

  /** Trailing whitespace after a word that does not end with whitespace is
      exactly what `RStrip` removes. */
  lemma RStripPadded(x: string, post: string)
    requires AllSpace(post) && x != [] && !IsSpace(x[|x| - 1])
    ensures RStrip(x + post) == x
  {
    var s := x + post;
    var r := RStrip(s);
    assert s[|x| - 1] == x[|x| - 1];
    assert |r| <= |x|;
  }

  /** Stripping twice is stripping once. */
  lemma StripIdempotent(s: string)
    ensures Strip(Strip(s)) == Strip(s)
  {
    var t := Strip(s);
    if t != [] {
      StripPadded([], t, []);
      assert [] + t + [] == t;
    }
  }

  /** `s.replace(old, new)` for one-character arguments. */
  function ReplaceChar(s: string, target: char, replacement: char): (r: string)
    ensures |r| == |s|
    ensures forall k :: 0 <= k < |s| ==> r[k] == if s[k] == target then replacement else s[k]
  {
    seq(|s|, k requires 0 <= k < |s| => if s[k] == target then replacement else s[k])
  }

  predicate IsDigit(c: char) {
    '0' <= c <= '9'
  }

  predicate AllDigits(s: string) {
    forall k :: 0 <= k < |s| ==> IsDigit(s[k])
  }

  /** The value of a string of decimal digits, most significant first. */
  function DigitsValue(s: string): nat
    requires AllDigits(s)
  {
    if s == [] then 0 else 10 * DigitsValue(s[..|s| - 1]) + (s[|s| - 1] - '0') as nat
  }

  /** Python 2's `int(s)` on a byte string: surrounding whitespace, an optional
      sign, whitespace between the sign and the number, then one or more
      decimal digits; anything else is a ValueError (None). */
  function PyInt(s: string): (r: Option<int>)
  {
    PyIntStripped(Strip(s))
  }

  /** `int()` on text without surrounding whitespace. */
  function PyIntStripped(t: string): Option<int> {
    if t == [] then None
    else if t[0] == '-' || t[0] == '+' then
      var digits := LStrip(t[1..]);
      if digits != [] && AllDigits(digits) then
        var v: int := DigitsValue(digits);
        Some(if t[0] == '-' then -v else v)
      else None
    else if AllDigits(t) then Some(DigitsValue(t))
    else None
  }

  /** `str(n)` for a natural number. */
  function Decimal(n: nat): (s: string)
    ensures s != [] && AllDigits(s)
  {
    var d := ['0' + (n % 10) as char];
    if n < 10 then d else Decimal(n / 10) + d
  }

  /** Reading back a rendered number gives the number. */
  lemma {:induction false} DigitsValueDecimal(n: nat)
    ensures DigitsValue(Decimal(n)) == n
  {
    var s := Decimal(n);
    if n >= 10 {
      DigitsValueDecimal(n / 10);
      assert s[..|s| - 1] == Decimal(n / 10);
    }
  }

  lemma {:induction false} StripDigits(s: string)
    requires s != [] && AllDigits(s)
    ensures Strip(s) == s
  {
    assert !IsSpace(s[0]) && LStrip(s) == s;
  }

  /** A sign, any whitespace, then decimal digits: Python 2 reads the signed
      number. */
  lemma {:induction false} PyIntSigned(sign: char, gap: string, d: string)
    requires sign == '-' || sign == '+'
    requires AllSpace(gap) && d != [] && AllDigits(d)
    ensures PyInt([sign] + gap + d) == Some(if sign == '-' then -(DigitsValue(d) as int) else DigitsValue(d))
  {
    var s := [sign] + gap + d;
    StripSigned(sign, gap, d);
    assert s[1..] == gap + d;
    assert IsDigit(d[0]);
    LStripPadded(gap, d);
    PyIntSignedForm(s, d);
  }

  /** `PyInt` on a stripped, signed text whose remainder strips to digits. */
  lemma PyIntSignedForm(t: string, d: string)
    requires t != [] && Strip(t) == t && (t[0] == '-' || t[0] == '+')
    requires LStrip(t[1..]) == d && d != [] && AllDigits(d)
    ensures PyInt(t) == Some(if t[0] == '-' then -(DigitsValue(d) as int) else DigitsValue(d))
  {
    assert PyInt(t) == PyIntStripped(t);
  }

  lemma StripSigned(sign: char, gap: string, d: string)
    requires sign == '-' || sign == '+'
    requires d != [] && AllDigits(d)
    ensures Strip([sign] + gap + d) == [sign] + gap + d
  {
    var s := [sign] + gap + d;
    assert s[|s| - 1] == d[|d| - 1] && IsDigit(d[|d| - 1]);
    StripPadded([], s, []);
    assert [] + s + [] == s;
  }

  /** `int(str(n)) == n` for every natural number. */
  lemma PyIntDecimal(n: nat)
    ensures PyInt(Decimal(n)) == Some(n)
  {
    var s := Decimal(n);
    StripDigits(s);
    DigitsValueDecimal(n);
    assert s[0] != '-' && s[0] != '+' by { assert IsDigit(s[0]); }
  }
}
