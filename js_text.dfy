/**
 * The pieces of the JavaScript runtime that the modelled code leans on:
 * String.prototype.trim, split on one character, includes, an ASCII
 * toLowerCase, and the global parseInt. Strings are sequences of chars
 * (code points; the source's UTF-16 code units agree on everything below
 * U+10000).
 */
module JsText {
  import opened Wrappers

  predicate IsDigit(c: char) { '0' <= c <= '9' }

  predicate IsHexDigit(c: char) { IsDigit(c) || 'a' <= c <= 'f' || 'A' <= c <= 'F' }

  /** WhiteSpace and LineTerminator of ECMAScript, the set trim and parseInt skip. */
  predicate IsJsWhitespace(c: char) {
    c == '\t' || c == '\n' || c == '\U{000B}' || c == '\U{000C}' || c == '\r' || c == ' '
    || c == '\U{00A0}' || c == '\U{1680}' || ('\U{2000}' <= c <= '\U{200A}')
    || c == '\U{2028}' || c == '\U{2029}' || c == '\U{202F}' || c == '\U{205F}'
    || c == '\U{3000}' || c == '\U{FEFF}'
  }

  predicate AllDigits(s: string) { forall i :: 0 <= i < |s| ==> IsDigit(s[i]) }

  predicate AllWhitespace(s: string) { forall i :: 0 <= i < |s| ==> IsJsWhitespace(s[i]) }

  /** Length of the longest prefix of s whose characters all satisfy p. */
  function CountWhile(s: string, p: char -> bool): (n: nat)
    ensures n <= |s|
    ensures forall i :: 0 <= i < n ==> p(s[i])
    ensures n < |s| ==> !p(s[n])
  {
    if |s| == 0 || !p(s[0]) then 0 else 1 + CountWhile(s[1..], p)
  }

  /** Length of the longest suffix of s whose characters all satisfy p. */
  function CountWhileFromEnd(s: string, p: char -> bool): (n: nat)
    ensures n <= |s|
    ensures forall i :: |s| - n <= i < |s| ==> p(s[i])
    ensures n < |s| ==> !p(s[|s| - n - 1])
  {
    if |s| == 0 || !p(s[|s| - 1]) then 0 else 1 + CountWhileFromEnd(s[..|s| - 1], p)
  }

  /** The bounds [lo, hi) of s.trim() inside s. */
  function TrimBounds(s: string): (b: (nat, nat))
    ensures b.0 <= b.1 <= |s|
    ensures forall i :: 0 <= i < b.0 ==> IsJsWhitespace(s[i])
    ensures forall i :: b.1 <= i < |s| ==> IsJsWhitespace(s[i])
    ensures b.0 < b.1 ==> !IsJsWhitespace(s[b.0]) && !IsJsWhitespace(s[b.1 - 1])
  {
    var lo := CountWhile(s, IsJsWhitespace);
    var tail := CountWhileFromEnd(s[lo..], IsJsWhitespace);
    (lo, |s| - tail)
  }

  /** String.prototype.trim */
  function Trim(s: string): (t: string)
    ensures |t| <= |s|
    ensures t != [] ==> !IsJsWhitespace(t[0]) && !IsJsWhitespace(t[|t| - 1])
    ensures t == [] <==> AllWhitespace(s)
  {
    var b := TrimBounds(s);
    s[b.0..b.1]
  }

  lemma SliceThree(s: string, i: nat, j: nat)
    requires i <= j <= |s|
    ensures s == s[..i] + s[i..j] + s[j..]
  {
    assert s[..i] + s[i..j] == s[..j];
  }

  /** The whitespace that trim removes is exactly what surrounds its result. */
  lemma TrimDecompose(s: string)
    ensures var b := TrimBounds(s);
      s == s[..b.0] + Trim(s) + s[b.1..] && AllWhitespace(s[..b.0]) && AllWhitespace(s[b.1..])
  {
    var b := TrimBounds(s);
    assert Trim(s) == s[b.0..b.1];
    SliceThree(s, b.0, b.1);
    assert AllWhitespace(s[..b.0]) by {
      forall i | 0 <= i < b.0 ensures IsJsWhitespace(s[..b.0][i]) {
        assert s[..b.0][i] == s[i];
      }
    }
    assert AllWhitespace(s[b.1..]) by {
      forall i | 0 <= i < |s| - b.1 ensures IsJsWhitespace(s[b.1..][i]) {
        assert s[b.1..][i] == s[b.1 + i];
      }
    }
  }

  /** Trimming a string padded with whitespace gives back the inner text. */
  lemma TrimPadded(pre: string, t: string, post: string)
    requires AllWhitespace(pre) && AllWhitespace(post)
    requires t != [] && !IsJsWhitespace(t[0]) && !IsJsWhitespace(t[|t| - 1])
    ensures Trim(pre + t + post) == t
  {
    var s := pre + t + post;
    var b := TrimBounds(s);
    assert s[|pre|] == t[0];
    assert s[|pre| + |t| - 1] == t[|t| - 1];
    assert b.0 == |pre| && b.1 == |pre| + |t|;
    assert s[b.0..b.1] == t;
  }

  /** Number of occurrences of c in s. */
  function Count(s: string, c: char): (n: nat)
    ensures n <= |s|
    ensures n == 0 <==> c !in s
  {
    if s == [] then 0 else (if s[0] == c then 1 else 0) + Count(s[1..], c)
  }

  /** String.prototype.split with a one-character separator. */
  function Split(s: string, sep: char): (parts: seq<string>)
    ensures |parts| == Count(s, sep) + 1
    ensures forall i :: 0 <= i < |parts| ==> sep !in parts[i]
  {
    if s == [] then [[]]
    else
      var rest := Split(s[1..], sep);
      if s[0] == sep then [[]] + rest
      else [[s[0]] + rest[0]] + rest[1..]
  }

  lemma {:induction false} SplitNoSeparator(s: string, sep: char)
    requires sep !in s
    ensures Split(s, sep) == [s]
  {
    if s != [] {
      SplitNoSeparator(s[1..], sep);
      assert [s[0]] + s[1..] == s;
    }
  }

  /** Splitting "a<sep>b" where neither side holds the separator gives [a, b]. */
  lemma {:induction false} SplitPair(a: string, b: string, sep: char)
    requires sep !in a && sep !in b
    ensures Split(a + [sep] + b, sep) == [a, b]
  {
    var s := a + [sep] + b;
    if a == [] {
      assert s[1..] == b;
      SplitNoSeparator(b, sep);
    } else {
      assert s[1..] == a[1..] + [sep] + b;
      SplitPair(a[1..], b, sep);
      assert [a[0]] + a[1..] == a;
    }
  }

  /** Index of the first c in s. */
  function FirstIndex(s: string, c: char): (k: nat)
    requires c in s
    ensures k < |s| && s[k] == c && c !in s[..k]
  {
    if s[0] == c then 0
    else
      var k := FirstIndex(s[1..], c);
      assert s[1..][..k] == s[1..k + 1];
      k + 1
  }

  function DigitValue(c: char): (v: nat)
    requires IsHexDigit(c)
    ensures v < 16
    ensures IsDigit(c) ==> v < 10
  {
    if IsDigit(c) then c as nat - '0' as nat
    else if 'a' <= c <= 'f' then c as nat - 'a' as nat + 10
    else c as nat - 'A' as nat + 10
  }

  /** Value of a string of decimal digits (most significant first). */
  function DecimalValue(ds: string): (v: nat)
    requires AllDigits(ds)
  {
    if ds == [] then 0 else 10 * DecimalValue(ds[..|ds| - 1]) + DigitValue(ds[|ds| - 1])
  }

  /** Value of a string of hexadecimal digits (most significant first). */
  function HexValue(ds: string): (v: nat)
    requires forall i :: 0 <= i < |ds| ==> IsHexDigit(ds[i])
  {
    if ds == [] then 0 else 16 * HexValue(ds[..|ds| - 1]) + DigitValue(ds[|ds| - 1])
  }

  function DigitChar(d: nat): (c: char)
    requires d < 10
    ensures IsDigit(c) && DigitValue(c) == d
  {
    ('0' as nat + d) as char
  }

  /** Decimal rendering of a natural number, as `${n}` writes it. */
  function Show(n: nat): (s: string)
    ensures AllDigits(s) && DecimalValue(s) == n
    ensures n < 10 ==> |s| == 1
    ensures 10 <= n < 100 ==> |s| == 2
    ensures 100 <= n < 1000 ==> |s| == 3
  {
    if n < 10 then [DigitChar(n)]
    else
      var s := Show(n / 10) + [DigitChar(n % 10)];
      assert s[..|s| - 1] == Show(n / 10);
      s
  }

  /**
   * The global parseInt(s) without a radix: skip leading whitespace, take an
   * optional sign, switch to base 16 after "0x"/"0X", then read the longest
   * run of digits; None is NaN when that run is empty.
   */
  function ParseInt(s: string): (r: Option<int>)
  {
    var t := s[CountWhile(s, IsJsWhitespace)..];
    var negative := |t| > 0 && t[0] == '-';
    var u := if |t| > 0 && (t[0] == '-' || t[0] == '+') then t[1..] else t;
    var sign := if negative then -1 else 1;
    if |u| >= 2 && u[0] == '0' && (u[1] == 'x' || u[1] == 'X') then
      var ds := u[2..][..CountWhile(u[2..], IsHexDigit)];
      if ds == [] then None else Some(sign * HexValue(ds))
    else
      var ds := u[..CountWhile(u, IsDigit)];
      if ds == [] then None else Some(sign * DecimalValue(ds))
  }

  /** CountWhile stops exactly after a prefix of p-characters that is followed by a non-p character. */
  lemma {:induction false} CountWhilePrefix(pre: string, rest: string, p: char -> bool)
    requires forall i :: 0 <= i < |pre| ==> p(pre[i])
    requires rest != [] ==> !p(rest[0])
    ensures CountWhile(pre + rest, p) == |pre|
  {
    if pre != [] {
      assert (pre + rest)[0] == pre[0];
      assert (pre + rest)[1..] == pre[1..] + rest;
      CountWhilePrefix(pre[1..], rest, p);
    }
  }

  /** parseInt reads a non-empty run of decimal digits followed by anything that is not a digit. */
  lemma ParseIntDigitsPrefix(ds: string, rest: string)
    requires ds != [] && AllDigits(ds)
    requires rest != [] ==> !IsDigit(rest[0])
    requires ds == "0" && rest != [] ==> rest[0] != 'x' && rest[0] != 'X'
    ensures ParseInt(ds + rest) == Some(DecimalValue(ds))
  {
    var s := ds + rest;
    assert s[0] == ds[0];
    assert !IsJsWhitespace(s[0]);
    assert CountWhile(s, IsJsWhitespace) == 0;
    assert s[0..] == s;
    assert !(s[0] == '-' || s[0] == '+');
    assert !(|s| >= 2 && s[0] == '0' && (s[1] == 'x' || s[1] == 'X')) by {
      if |s| >= 2 {
        if |ds| >= 2 { assert s[1] == ds[1]; } else { assert s[1] == rest[0]; }
      }
    }
    CountWhilePrefix(ds, rest, IsDigit);
    assert s[..|ds|] == ds;
  }

  /** parseInt of a non-empty all-digit string is its decimal value. */
  lemma ParseIntDigits(ds: string)
    requires ds != [] && AllDigits(ds)
    ensures ParseInt(ds) == Some(DecimalValue(ds))
  {
    ParseIntDigitsPrefix(ds, []);
    assert ds + [] == ds;
  }

  function ToLowerChar(c: char): char {
    if 'A' <= c <= 'Z' then (c as int + 32) as char else c
  }

  /** String.prototype.toLowerCase on ASCII letters. */
  function ToLower(s: string): (r: string)
    ensures |r| == |s| && forall i :: 0 <= i < |s| ==> r[i] == ToLowerChar(s[i])
  {
    seq(|s|, i requires 0 <= i < |s| => ToLowerChar(s[i]))
  }

  predicate IsPrefix(t: string, s: string) { |t| <= |s| && s[..|t|] == t }

  /** String.prototype.includes: t occurs in s at some position. */
  predicate Contains(s: string, t: string)
  {
    IsPrefix(t, s) || (|s| > 0 && Contains(s[1..], t))
  }

  lemma ContainsEmpty(s: string)
    ensures Contains(s, [])
  {
  }

  /**
   * A date field of a record as Date reads it: null, a string Date cannot
   * read (getTime() is NaN), or an instant in milliseconds since the epoch.
   */
  datatype DateField = Missing | Invalid | At(ms: int)

  const MsPerDay := 1000 * 60 * 60 * 24
}
