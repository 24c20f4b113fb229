/**
  Python's int(str) on base-10 text and str(int), the two conversions the job
  relies on: int() coerces SMTP_PORT, str() renders the integer path
  parameters of the API URLs.

  int() accepts surrounding whitespace, an optional sign, and ASCII digits
  in which single underscores may separate two digits ("1_000"); anything
  else raises ValueError, which is None here. On ASCII text the whitespace
  int() skips is space and '\t' through '\r' only: the separators '\x1c' to
  '\x1f', for which str.isspace() holds, make int() fail.
 */
module IntText {
  import opened Values

  /** The whitespace int() skips around ASCII text: space, '\t', '\n', '\v', '\f' and '\r'. */
  predicate IsSpace(c: char)
  {
    c == ' ' || ('\t' <= c <= '\r')
  }

  predicate IsDigit(c: char)
  {
    '0' <= c <= '9'
  }

  function DigitValue(c: char): (d: nat)
    requires IsDigit(c)
    ensures d < 10
  {
    (c as int) - ('0' as int)
  }

  function DigitChar(d: nat): (c: char)
    requires d < 10
    ensures IsDigit(c) && DigitValue(c) == d
  {
    (('0' as int) + d) as char
  }

  /** str.lstrip(): drops leading whitespace. */
  function TrimLeft(s: string): (r: string)
    ensures |r| <= |s| && r == s[|s| - |r|..]
    ensures r == [] || !IsSpace(r[0])
    ensures forall i :: 0 <= i < |s| - |r| ==> IsSpace(s[i])
  {
    if s != [] && IsSpace(s[0]) then TrimLeft(s[1..]) else s
  }

  /** str.rstrip(): drops trailing whitespace. */
  function TrimRight(s: string): (r: string)
    ensures |r| <= |s| && r == s[..|r|]
    ensures r == [] || !IsSpace(r[|r| - 1])
    ensures forall i :: |r| <= i < |s| ==> IsSpace(s[i])
  {
    if s != [] && IsSpace(s[|s| - 1]) then TrimRight(s[..|s| - 1]) else s
  }

  function Strip(s: string): string
  {
    TrimRight(TrimLeft(s))
  }

  /**
    Digit text as int() accepts it: non-empty, starts and ends with a digit,
    and every underscore sits between two digits.
   */
  predicate WellFormedDigits(t: string)
  {
    && |t| > 0
    && IsDigit(t[0])
    && IsDigit(t[|t| - 1])
    && (forall i :: 0 <= i < |t| ==> IsDigit(t[i]) || t[i] == '_')
    && (forall i :: 0 < i < |t| && t[i] == '_' ==> IsDigit(t[i - 1]) && IsDigit(t[i + 1]))
  }

  /** The value of digit text, underscores ignored. */
  function DigitsValue(t: string): nat
    requires forall i :: 0 <= i < |t| ==> IsDigit(t[i]) || t[i] == '_'
  {
    if t == [] then 0
    else if t[|t| - 1] == '_' then DigitsValue(t[..|t| - 1])
    else 10 * DigitsValue(t[..|t| - 1]) + DigitValue(t[|t| - 1])
  }

  /** Digit text after a single '-' or '+' sign. */
  predicate SignedDigits(t: string)
  {
    |t| > 1 && (t[0] == '-' || t[0] == '+') && WellFormedDigits(t[1..])
  }

  /** The value of signed digit text: that of the digits, negated after a '-'. */
  function SignedValue(t: string): int
    requires SignedDigits(t)
  {
    if t[0] == '-' then -(DigitsValue(t[1..]) as int) else DigitsValue(t[1..])
  }

  /**
    Python's int(s) for a str s; None where int() raises ValueError. Once the
    surrounding whitespace is gone, int() accepts exactly well-formed digit
    text with at most one sign before it; the value is that of the digits,
    negated after a '-'.
   */
  function ParseInt(s: string): (r: Option<int>)
    ensures r.Some? <==> WellFormedDigits(Strip(s)) || SignedDigits(Strip(s))
    ensures WellFormedDigits(Strip(s)) ==> r == Some(DigitsValue(Strip(s)))
    ensures SignedDigits(Strip(s)) ==> r == Some(SignedValue(Strip(s)))
    ensures r.Some? && r.value < 0 ==> Strip(s)[0] == '-'
  {
    ParseStripped(Strip(s))
  }

  /** int() on text whose surrounding whitespace is already gone. */
  function ParseStripped(t: string): (r: Option<int>)
    ensures r.Some? <==> WellFormedDigits(t) || SignedDigits(t)
    ensures WellFormedDigits(t) ==> r == Some(DigitsValue(t))
    ensures SignedDigits(t) ==> r == Some(SignedValue(t))
    ensures r.Some? && r.value < 0 ==> t[0] == '-'
  {
    var negative := |t| > 0 && t[0] == '-';
    var body := if |t| > 0 && (t[0] == '-' || t[0] == '+') then t[1..] else t;
    if WellFormedDigits(body) then
      var v: int := DigitsValue(body);
      Some(if negative then -v else v)
    else None
  }

  /** str(n) for a non-negative integer: decimal digits, no leading zero, reading back as n. */
  function NatToString(n: nat): (r: string)
    ensures |r| > 0
    ensures forall i :: 0 <= i < |r| ==> IsDigit(r[i])
    ensures DigitsValue(r) == n
    ensures r[0] == '0' ==> n == 0
    ensures n == 0 ==> r == "0"
  {
    if n < 10 then [DigitChar(n)]
    else
      var r := NatToString(n / 10) + [DigitChar(n % 10)];
      assert r[..|r| - 1] == NatToString(n / 10);
      r
  }

  /** str(n) for an integer: a minus sign exactly when n is negative, then the digits of |n|, "0" for zero. */
  function IntToString(n: int): (r: string)
    ensures n == 0 ==> r == "0"
    ensures n >= 0 ==> WellFormedDigits(r) && DigitsValue(r) == n && (r[0] == '0' ==> n == 0)
    ensures n < 0 ==> |r| > 1 && r[0] == '-' && WellFormedDigits(r[1..]) && DigitsValue(r[1..]) == -n && r[1] != '0'
    ensures forall i :: 0 <= i < |r| ==> IsDigit(r[i]) || (i == 0 && r[i] == '-')
  {
    if n < 0 then
      var r := "-" + NatToString(-n);
      assert r[1..] == NatToString(-n);
      r
    else NatToString(n)
  }

  lemma StripNoSpace(t: string)
    requires forall i :: 0 <= i < |t| ==> !IsSpace(t[i])
    ensures Strip(t) == t
  {
  }

  lemma NatToStringWellFormed(n: nat)
    ensures WellFormedDigits(NatToString(n))
  {
  }

  /** Unsigned well-formed digit text reads as its value. */
  lemma ParseUnsigned(d: string)
    requires WellFormedDigits(d)
    ensures ParseStripped(d) == Some(DigitsValue(d))
  {
  }

  /** A minus sign before well-formed digit text reads as the negated value. */
  lemma ParseNegative(d: string)
    requires WellFormedDigits(d)
    ensures ParseStripped("-" + d) == Some(-(DigitsValue(d) as int))
  {
    assert ("-" + d)[1..] == d;
  }

  /** int(str(n)) == n: the conversions are inverse on every integer. */
  lemma IntToStringRoundTrip(n: int)
    ensures ParseInt(IntToString(n)) == Some(n)
  {
    var m: nat := if n < 0 then -n else n;
    var digits := NatToString(m);
    NatToStringWellFormed(m);
    var s := IntToString(n);
    forall i | 0 <= i < |s| ensures !IsSpace(s[i]) {
      if n < 0 && i > 0 { assert s[i] == digits[i - 1]; }
    }
    StripNoSpace(s);
    if n < 0 {
      ParseNegative(digits);
    } else {
      ParseUnsigned(digits);
    }
  }

  predicate AllSpace(s: string)
  {
    forall i :: 0 <= i < |s| ==> IsSpace(s[i])
  }

  /** Leading whitespace is dropped by lstrip whatever follows it. */
  lemma {:induction false} TrimLeftSpaces(a: string, x: string)
    requires AllSpace(a)
    ensures TrimLeft(a + x) == TrimLeft(x)
  {
    if a != [] {
      assert (a + x)[0] == a[0] && IsSpace(a[0]);
      assert (a + x)[1..] == a[1..] + x;
      TrimLeftSpaces(a[1..], x);
      assert TrimLeft(a + x) == TrimLeft(a[1..] + x);
    } else {
      assert a + x == x;
    }
  }

  /** Trailing whitespace is dropped by rstrip whatever precedes it. */
  lemma {:induction false} TrimRightSpaces(x: string, b: string)
    requires AllSpace(b)
    ensures TrimRight(x + b) == TrimRight(x)
  {
    if b != [] {
      assert (x + b)[|x + b| - 1] == b[|b| - 1] && IsSpace(b[|b| - 1]);
      assert (x + b)[..|x + b| - 1] == x + b[..|b| - 1];
      TrimRightSpaces(x, b[..|b| - 1]);
      assert TrimRight(x + b) == TrimRight(x + b[..|b| - 1]);
    } else {
      assert x + b == x;
    }
  }

  /** Once lstrip reaches a non-space character, what follows is kept as it is. */
  lemma {:induction false} TrimLeftAppend(s: string, b: string)
    requires TrimLeft(s) != []
    ensures TrimLeft(s + b) == TrimLeft(s) + b
  {
    assert (s + b)[0] == s[0];
    if IsSpace(s[0]) {
      assert TrimLeft(s) == TrimLeft(s[1..]);
      assert (s + b)[1..] == s[1..] + b;
      TrimLeftAppend(s[1..], b);
      assert TrimLeft(s + b) == TrimLeft(s[1..] + b);
    } else {
      assert TrimLeft(s) == s;
      assert TrimLeft(s + b) == s + b;
    }
  }

  /** Whitespace of any length around the text does not change what int() returns. */
  lemma ParseIntIgnoresPadding(a: string, s: string, b: string)
    requires AllSpace(a) && AllSpace(b)
    ensures ParseInt(a + s + b) == ParseInt(s)
  {
    TrimLeftSpaces(a, s + b);
    assert a + s + b == a + (s + b);
    if TrimLeft(s) == [] {
      assert AllSpace(s);
      TrimLeftSpaces(s, b);
      assert s + b == s + b + [];
      assert TrimLeft(b) == [];
      assert Strip(a + s + b) == [] == Strip(s);
    } else {
      TrimLeftAppend(s, b);
      TrimRightSpaces(TrimLeft(s), b);
    }
  }
}
