/** Integers written as decimal text and read back: Python's `str(int)` and
    `strftime` zero padding on the way out, JavaScript's `parseInt` on the way in. */
module Decimal {

  import opened Wrappers
  import Text

  predicate IsDigit(c: char) {
    '0' <= c <= '9'
  }

  predicate AllDigits(s: string) {
    forall i :: 0 <= i < |s| ==> IsDigit(s[i])
  }

  function DigitChar(d: nat): (c: char)
    requires d < 10
    ensures IsDigit(c)
  {
    ('0' as int + d) as char
  }

  /** Decimal digits of `n` without leading zeros. */
  function NatToString(n: nat): (r: string)
    ensures |r| >= 1 && AllDigits(r)
    ensures |r| > 1 ==> r[0] != '0'
    decreases n
  {
    if n < 10 then [DigitChar(n)] else NatToString(n / 10) + [DigitChar(n % 10)]
  }

  /** `str(n)` in Python, `String(n)` in JavaScript. */
  function IntToString(n: int): (r: string)
    ensures |r| >= 1
    ensures r[0] == '-' <==> n < 0
    ensures n >= 0 ==> AllDigits(r)
  {
    if n < 0 then "-" + NatToString(-n) else NatToString(n)
  }

  /** A string of digits holds no character that is not a digit. */
  lemma DigitsLack(s: string, c: char)
    requires AllDigits(s) && !IsDigit(c)
    ensures c !in s
  {
  }

  /** The number a string of decimal digits denotes. */
  function DigitsValue(s: string): nat
    requires AllDigits(s)
  {
    if s == [] then 0 else DigitsValue(s[..|s| - 1]) * 10 + (s[|s| - 1] as int - '0' as int)
  }

  lemma {:induction false} NatToStringRoundTrip(n: nat)
    ensures DigitsValue(NatToString(n)) == n
    decreases n
  {
    if n >= 10 {
      var s := NatToString(n);
      assert s[..|s| - 1] == NatToString(n / 10);
      NatToStringRoundTrip(n / 10);
    }
  }

  lemma {:induction false} LeadingZero(s: string)
    requires AllDigits(s)
    ensures DigitsValue("0" + s) == DigitsValue(s)
    decreases |s|
  {
    if s != [] {
      var t := "0" + s;
      assert t[..|t| - 1] == "0" + s[..|s| - 1];
      LeadingZero(s[..|s| - 1]);
    }
  }

  /** `n` in at least `width` digits, zero-padded on the left (strftime's `%d`, `%m`,
      `%H`, `%M` with width 2, `%Y` with width 4). */
  function Pad(n: nat, width: nat): (r: string)
    ensures |r| >= width && AllDigits(r)
    ensures |r| > width ==> r == NatToString(n)
    decreases width
  {
    var d := NatToString(n);
    if |d| >= width then d else "0" + Pad(n, width - 1)
  }

  lemma {:induction false} PadRoundTrip(n: nat, width: nat)
    ensures DigitsValue(Pad(n, width)) == n
    decreases width
  {
    if |NatToString(n)| >= width {
      NatToStringRoundTrip(n);
    } else {
      PadRoundTrip(n, width - 1);
      LeadingZero(Pad(n, width - 1));
    }
  }

  /** Two-digit fields (day, month, hour, minute) are exactly two characters wide. */
  lemma Pad2Width(n: nat)
    requires n < 100
    ensures |Pad(n, 2)| == 2
  {
    if n >= 10 {
      assert NatToString(n / 10) == [DigitChar(n / 10)];
    }
  }

  /** Four-digit years are exactly four characters wide. */
  lemma Pad4Width(n: nat)
    requires 1000 <= n < 10000
    ensures |Pad(n, 4)| == 4
  {
    assert NatToString(n / 1000) == [DigitChar(n / 1000)];
    assert |NatToString(n / 100)| == 2;
    assert |NatToString(n / 10)| == 3;
  }

  /** A field of exactly `width` digits, read as a number; `None` when the text has
      another length or a non-digit. */
  function ParseFixed(s: string, width: nat): (r: Option<nat>)
    ensures r.Some? <==> |s| == width && AllDigits(s)
  {
    if |s| == width && AllDigits(s) then Some(DigitsValue(s)) else None
  }

  lemma PadParsesBack(n: nat, width: nat)
    requires |Pad(n, width)| == width
    ensures ParseFixed(Pad(n, width), width) == Some(n)
  {
    PadRoundTrip(n, width);
  }

  /** The longest prefix of `s` made of digits. */
  function DigitPrefix(s: string): (r: string)
    ensures |r| <= |s| && r == s[..|r|] && AllDigits(r)
    ensures |r| < |s| ==> !IsDigit(s[|r|])
  {
    if s != [] && IsDigit(s[0]) then
      var r := [s[0]] + DigitPrefix(s[1..]);
      assert s[..|r|] == [s[0]] + s[1..][..|r| - 1];
      r
    else []
  }

  /** JavaScript's `parseInt(s)` (base 10): leading white space is skipped, one sign
      is accepted, and the longest run of digits after it is read; `None` stands for
      `NaN`, the result when no digit follows. */
  function ParseIntJs(s: string): (r: Option<int>)
  {
    var t := Text.TrimStart(s, Text.IsJsSpace);
    var negative := |t| > 0 && t[0] == '-';
    var unsigned := if |t| > 0 && (t[0] == '-' || t[0] == '+') then t[1..] else t;
    var digits := DigitPrefix(unsigned);
    if digits == [] then None
    else
      var magnitude: int := DigitsValue(digits);
      Some(if negative then -magnitude else magnitude)
  }

  /** Text with no digit at all is `NaN`. */
  lemma ParseIntNoDigits(s: string)
    requires forall i :: 0 <= i < |s| ==> !IsDigit(s[i])
    ensures ParseIntJs(s) == None
  {
    var t := Text.TrimStart(s, Text.IsJsSpace);
    assert forall i :: 0 <= i < |t| ==> t[i] == s[|s| - |t| + i];
  }

  lemma {:induction false} DigitPrefixOfDigits(s: string)
    requires AllDigits(s)
    ensures DigitPrefix(s) == s
  {
    if s != [] {
      DigitPrefixOfDigits(s[1..]);
    }
  }

  /** What `String(n)` writes, `parseInt` reads back. */
  /** An explicit '+' before the digits is read past. */
  lemma ParsePlusRoundTrip(n: nat)
    ensures ParseIntJs("+" + IntToString(n)) == Some(n)
  {
    var digits := IntToString(n);
    var s := "+" + digits;
    assert s[0] == '+' && !Text.IsJsSpace(s[0]);
    assert Text.TrimStart(s, Text.IsJsSpace) == s;
    assert s[1..] == digits == NatToString(n);
    DigitPrefixOfDigits(digits);
    NatToStringRoundTrip(n);
  }

  lemma ParseIntRoundTrip(n: int)
    ensures ParseIntJs(IntToString(n)) == Some(n)
  {
    var s := IntToString(n);
    assert !Text.IsJsSpace(s[0]);
    assert Text.TrimStart(s, Text.IsJsSpace) == s;
    var m: nat := if n < 0 then -n else n;
    DigitPrefixOfDigits(NatToString(m));
    NatToStringRoundTrip(m);
    if n < 0 {
      assert s[1..] == NatToString(m);
    }
  }

  lemma {:induction false} DigitPrefixBeforeNonDigit(d: string, rest: string)
    requires AllDigits(d) && rest != [] && !IsDigit(rest[0])
    ensures DigitPrefix(d + rest) == d
  {
    if d == [] {
      assert d + rest == rest;
    } else {
      assert (d + rest)[1..] == d[1..] + rest;
      DigitPrefixBeforeNonDigit(d[1..], rest);
      assert [d[0]] + d[1..] == d;
    }
  }

  /** `parseInt` reads a count back off the front of the text it was written into,
      as long as a non-digit follows it. */
  lemma ParseIntPrefix(n: nat, rest: string)
    requires rest != [] && !IsDigit(rest[0])
    ensures ParseIntJs(IntToString(n) + rest) == Some(n)
  {
    var d := IntToString(n);
    var s := d + rest;
    assert s[0] == d[0] && IsDigit(s[0]);
    assert !Text.IsJsSpace(s[0]);
    assert Text.TrimStart(s, Text.IsJsSpace) == s;
    DigitPrefixBeforeNonDigit(d, rest);
    NatToStringRoundTrip(n);
  }

  /** `String` never maps two numbers to the same text. */
  lemma IntToStringInjective(a: int, b: int)
    requires IntToString(a) == IntToString(b)
    ensures a == b
  {
    ParseIntRoundTrip(a);
    ParseIntRoundTrip(b);
  }

  /** Python's `int(s)` on text: surrounding white space is stripped, one sign is
      accepted, and everything left must be decimal digits; `None` stands for the
      `ValueError` raised otherwise. */
  function ParseIntPy(s: string): (r: Option<int>)
    ensures r.Some? ==> exists k :: 0 <= k < |s| && IsDigit(s[k])
  {
    var t := Text.Trim(s, Text.IsPySpace);
    var unsigned := if |t| > 0 && (t[0] == '-' || t[0] == '+') then t[1..] else t;
    if unsigned == [] || !AllDigits(unsigned) then None
    else
      Text.TrimChars(s, Text.IsPySpace);
      assert unsigned[|unsigned| - 1] == t[|t| - 1] && IsDigit(t[|t| - 1]);
      var magnitude: int := DigitsValue(unsigned);
      Some(if t[0] == '-' then -magnitude else magnitude)
  }

  /** The text of a number starts with a sign or a digit and ends with a digit. */
  lemma IntToStringEnds(n: int)
    ensures var s := IntToString(n);
      |s| > 0 && (s[0] == '-' || IsDigit(s[0])) && IsDigit(s[|s| - 1])
  {
    var s := IntToString(n);
    var m: nat := if n < 0 then -n else n;
    var digits := NatToString(m);
    assert s == if n < 0 then "-" + digits else digits;
    assert s[|s| - 1] == digits[|digits| - 1];
  }

  /** `str(n)` has no white space to strip. */
  lemma PyTrimIntToString(n: int)
    ensures Text.Trim(IntToString(n), Text.IsPySpace) == IntToString(n)
  {
    var s := IntToString(n);
    IntToStringEnds(n);
    assert !Text.IsPySpace(s[0]) && !Text.IsPySpace(s[|s| - 1]);
    Text.TrimOfTrimmed(s, Text.IsPySpace);
  }

  /** `String(n)` has no white space to trim. */
  lemma JsTrimIntToString(n: int)
    ensures Text.Trim(IntToString(n), Text.IsJsSpace) == IntToString(n)
  {
    var s := IntToString(n);
    IntToStringEnds(n);
    assert !Text.IsJsSpace(s[0]) && !Text.IsJsSpace(s[|s| - 1]);
    Text.TrimOfTrimmed(s, Text.IsJsSpace);
  }

  /** What `str(n)` writes, `int` reads back. */
  lemma ParseIntPyRoundTrip(n: int)
    ensures ParseIntPy(IntToString(n)) == Some(n)
  {
    var s := IntToString(n);
    var m: nat := if n < 0 then -n else n;
    var digits := NatToString(m);
    PyTrimIntToString(n);
    NatToStringRoundTrip(m);
    if n < 0 {
      assert s == "-" + digits && s[1..] == digits;
    } else {
      assert s == digits && IsDigit(s[0]);
    }
  }
}
