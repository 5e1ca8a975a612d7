/**
 * The JavaScript string operations the pages rely on: `String.prototype.trim`,
 * the regular-expression class `\d`, `Number.prototype.toString` on
 * non-negative integers and `padStart`, plus truncating division as
 * dayjs's `diff` rounds.
 */
module Strings {

  /** ECMAScript WhiteSpace and LineTerminator code points: what `trim` removes. */
  predicate IsWhitespace(c: char) {
    c == '\t' || c == '\n' || c == '\U{B}' || c == '\U{C}' || c == '\r' || c == ' '
    || c == '\U{A0}' || c == '\U{1680}' || ('\U{2000}' <= c <= '\U{200A}')
    || c == '\U{2028}' || c == '\U{2029}' || c == '\U{202F}' || c == '\U{205F}'
    || c == '\U{3000}' || c == '\U{FEFF}'
  }

  /** Every character is whitespace: the strings JavaScript's `!s.trim()` is true of. */
  predicate IsBlank(s: string) {
    forall i :: 0 <= i < |s| ==> IsWhitespace(s[i])
  }

  /** `trimStart`: drop leading whitespace; what is left is a suffix of `s`. */
  function TrimStart(s: string): (r: string)
    ensures |r| <= |s| && r == s[|s| - |r|..]
    ensures r == [] || !IsWhitespace(r[0])
    ensures forall i :: 0 <= i < |s| - |r| ==> IsWhitespace(s[i])
  {
    if s != [] && IsWhitespace(s[0]) then TrimStart(s[1..]) else s
  }

  /** `trimEnd`: drop trailing whitespace; what is left is a prefix of `s`. */
  function TrimEnd(s: string): (r: string)
    ensures |r| <= |s| && r == s[..|r|]
    ensures r == [] || !IsWhitespace(r[|r| - 1])
    ensures forall i :: |r| <= i < |s| ==> IsWhitespace(s[i])
  {
    if s != [] && IsWhitespace(s[|s| - 1]) then TrimEnd(s[..|s| - 1]) else s
  }

  /** `String.prototype.trim`. */
  function Trim(s: string): (r: string)
    ensures |r| <= |s|
    ensures r == [] <==> IsBlank(s)
    ensures r == [] || (!IsWhitespace(r[0]) && !IsWhitespace(r[|r| - 1]))
  {
    var t := TrimStart(s);
    assert t == [] ==> IsBlank(s);
    assert IsBlank(s) ==> t == [] by {
      if t != [] {
        assert t[0] == s[|s| - |t|];
      }
    }
    TrimEnd(t)
  }

  /** `trim` cuts only whitespace, and only from the two ends: the result is a window of `s`. */
  lemma TrimIsWindow(s: string)
    ensures exists i, j :: 0 <= i <= j <= |s| && Trim(s) == s[i..j] && IsBlank(s[..i]) && IsBlank(s[j..])
  {
    var t := TrimStart(s);
    var i := |s| - |t|;
    var r := TrimEnd(t);
    var j := i + |r|;
    assert IsBlank(s[..i]) by { TrimStartWindow(s); }
    assert IsBlank(s[j..]) by {
      TrimEndWindow(t);
      assert s[j..] == t[|r|..];
    }
    assert r == s[i..j] by { assert t == s[i..]; }
    assert Trim(s) == r;
  }

  /** What `trimStart` cut off is whitespace. */
  lemma TrimStartWindow(s: string)
    ensures IsBlank(s[..|s| - |TrimStart(s)|])
  {
    var i := |s| - |TrimStart(s)|;
    forall k | 0 <= k < i ensures IsWhitespace(s[..i][k]) {
    }
  }

  /** What `trimEnd` cut off is whitespace. */
  lemma TrimEndWindow(t: string)
    ensures IsBlank(t[|TrimEnd(t)|..])
  {
    var r := TrimEnd(t);
    forall k | 0 <= k < |t| - |r| ensures IsWhitespace(t[|r|..][k]) {
    }
  }

  lemma {:induction false} TrimEndIdle(s: string)
    requires s == [] || !IsWhitespace(s[|s| - 1])
    ensures TrimEnd(s) == s
  {
  }

  /** Trimming twice is trimming once. */
  lemma {:induction false} TrimIdempotent(s: string)
    ensures Trim(Trim(s)) == Trim(s)
  {
    var r := Trim(s);
    assert TrimStart(r) == r;
    TrimEndIdle(r);
  }

  /** A string that does not start or end with whitespace is its own trim. */
  lemma {:induction false} TrimIdle(s: string)
    requires s == [] || (!IsWhitespace(s[0]) && !IsWhitespace(s[|s| - 1]))
    ensures Trim(s) == s
  {
    assert TrimStart(s) == s;
    TrimEndIdle(s);
  }

  /** Leading whitespace does not survive trimming. */
  lemma TrimDropsLeadingWhitespace(c: char, s: string)
    requires IsWhitespace(c)
    ensures Trim([c] + s) == Trim(s)
  {
    assert ([c] + s)[1..] == s;
  }

  /** The regular-expression class `\d` (ASCII digits; the patterns here carry no `u` flag). */
  predicate IsDigit(c: char) {
    '0' <= c <= '9'
  }

  predicate AllDigits(s: string) {
    forall i :: 0 <= i < |s| ==> IsDigit(s[i])
  }

  function DigitChar(d: nat): (c: char)
    requires d < 10
    ensures IsDigit(c) && c as int - '0' as int == d
  {
    ('0' as int + d) as char
  }

  /** The value of a string of decimal digits, leading zeros allowed. */
  function DecimalValue(s: string): nat
    requires AllDigits(s)
  {
    if s == [] then 0
    else DecimalValue(s[..|s| - 1]) * 10 + (s[|s| - 1] as int - '0' as int)
  }

  /** `n.toString()` for a non-negative integer: digits, most significant first, no leading zero. */
  function NatToDecimal(n: nat): (r: string)
    ensures |r| >= 1 && AllDigits(r)
    ensures |r| > 1 ==> r[0] != '0'
    ensures n < 10 <==> |r| == 1
  {
    if n < 10 then [DigitChar(n)] else NatToDecimal(n / 10) + [DigitChar(n % 10)]
  }

  /** Reading back what `toString` wrote gives the number. */
  lemma {:induction false} DecimalRoundTrip(n: nat)
    ensures DecimalValue(NatToDecimal(n)) == n
  {
    if n >= 10 {
      var r := NatToDecimal(n);
      assert r[..|r| - 1] == NatToDecimal(n / 10);
      DecimalRoundTrip(n / 10);
    }
  }

  /** Numbers below 100 print as one or two digits. */
  lemma DecimalBelow100(n: nat)
    requires n < 100
    ensures |NatToDecimal(n)| <= 2
  {
    if n >= 10 {
      assert |NatToDecimal(n / 10)| == 1;
    }
  }

  /** `s.padStart(2, "0")`. */
  function PadStart2(s: string): (r: string)
    ensures |r| == if |s| < 2 then 2 else |s|
    ensures r[|r| - |s|..] == s
    ensures forall i :: 0 <= i < |r| - |s| ==> r[i] == '0'
  {
    if |s| == 0 then "00" else if |s| == 1 then "0" + s else s
  }

  /** Leading zeros do not change a decimal value. */
  lemma {:induction false} DecimalLeadingZero(s: string)
    requires AllDigits(s)
    ensures AllDigits("0" + s) && DecimalValue("0" + s) == DecimalValue(s)
  {
    if s != [] {
      var t := "0" + s;
      assert t[..|t| - 1] == "0" + s[..|s| - 1];
      DecimalLeadingZero(s[..|s| - 1]);
    }
  }

  /** `padStart(2, "0")` applied to `n.toString()` still reads back as `n`. */
  lemma PaddedRoundTrip(n: nat)
    ensures AllDigits(PadStart2(NatToDecimal(n)))
    ensures DecimalValue(PadStart2(NatToDecimal(n))) == n
  {
    var d := NatToDecimal(n);
    DecimalRoundTrip(n);
    DecimalLeadingZero(d);
  }

  /** Division rounding toward zero, as dayjs's `diff` rounds a non-fractional result. */
  function TruncDiv(a: int, b: nat): (q: int)
    requires b > 0
    ensures a >= 0 ==> q * b <= a < q * b + b
    ensures a < 0 ==> q * b - b < a <= q * b
  {
    if a >= 0 then a / b else -((-a) / b)
  }
}
