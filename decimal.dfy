/** Python's `str(n)` for an integer `n`: an optional minus sign, then the
    decimal digits without leading zeros. */
module Decimal {

  predicate IsDigit(c: char) {
    '0' <= c <= '9'
  }

  predicate AllDigits(s: string) {
    forall i :: 0 <= i < |s| ==> IsDigit(s[i])
  }

  function DigitChar(d: nat): (c: char)
    requires d < 10
    ensures IsDigit(c) && c as int - '0' as int == d
  {
    ('0' as int + d) as char
  }

  function DigitValue(c: char): nat
    requires IsDigit(c)
  {
    c as int - '0' as int
  }

  /** The decimal digits of `n`, most significant first. */
  function NatToString(n: nat): (s: string)
    ensures |s| > 0 && AllDigits(s)
    ensures |s| > 1 ==> s[0] != '0'
    decreases n
  {
    if n < 10 then [DigitChar(n)] else NatToString(n / 10) + [DigitChar(n % 10)]
  }

  /** `str(n)` */
  function IntToString(n: int): (r: string)
    ensures |r| > 0 && (r[0] == '-' <==> n < 0)
  {
    if n < 0 then "-" + NatToString(-n) else NatToString(n)
  }

  /** The number a digit string denotes, read most significant digit first. */
  function DigitsValue(s: string): nat
    requires AllDigits(s)
  {
    if s == [] then 0 else DigitsValue(s[..|s| - 1]) * 10 + DigitValue(s[|s| - 1])
  }

  /** Reading back the digits of `n` gives `n`. */
  lemma {:induction false} NatToStringValue(n: nat)
    ensures DigitsValue(NatToString(n)) == n
    decreases n
  {
    if n >= 10 {
      var s := NatToString(n);
      NatToStringValue(n / 10);
      assert s[..|s| - 1] == NatToString(n / 10);
    }
  }

  /** The number of digits at the front of `w`. */
  function LeadingDigits(w: string): nat {
    if w != [] && IsDigit(w[0]) then 1 + LeadingDigits(w[1..]) else 0
  }

  lemma {:induction false} LeadingDigitsOf(u: string, s: string)
    requires AllDigits(u)
    requires s != [] && !IsDigit(s[0])
    ensures LeadingDigits(u + s) == |u|
  {
    if u != [] {
      assert (u + s)[1..] == u[1..] + s;
      LeadingDigitsOf(u[1..], s);
    }
  }

  /** A run of digits followed by a non-digit is determined by the string. */
  lemma DigitRunUnique(u: string, s: string, v: string, t: string)
    requires AllDigits(u) && AllDigits(v)
    requires s != [] && !IsDigit(s[0]) && t != [] && !IsDigit(t[0])
    requires u + s == v + t
    ensures u == v && s == t
  {
    LeadingDigitsOf(u, s);
    LeadingDigitsOf(v, t);
    assert u == (u + s)[..|u|];
    assert v == (v + t)[..|v|];
    assert s == (u + s)[|u|..];
    assert t == (v + t)[|v|..];
  }

  /** `str(n)` starts with a minus sign exactly when `n` is negative. */
  lemma SignOf(n: int, s: string)
    ensures (IntToString(n) + s)[0] == '-' <==> n < 0
  {
  }

  /** The digits of a natural number followed by a non-digit determine both. */
  lemma NatToStringInjective(p: nat, s: string, q: nat, t: string)
    requires s != [] && !IsDigit(s[0]) && t != [] && !IsDigit(t[0])
    requires NatToString(p) + s == NatToString(q) + t
    ensures p == q && s == t
  {
    DigitRunUnique(NatToString(p), s, NatToString(q), t);
    NatToStringValue(p);
    NatToStringValue(q);
  }

  /** Dropping a common minus sign. */
  lemma DropSign(x: string, y: string)
    requires "-" + x == "-" + y
    ensures x == y
  {
    assert x == ("-" + x)[1..];
    assert y == ("-" + y)[1..];
  }

  /** A negative number's text is a minus sign followed by its magnitude. */
  lemma NegativeForm(n: int, s: string)
    requires n < 0
    ensures IntToString(n) + s == "-" + (NatToString(-n) + s)
  {
  }

  /** `str(a) + s == str(b) + t` with `a` negative: `b` is negative too, and
      the digits after the two minus signs coincide. */
  lemma NegativeInjective(a: int, s: string, b: int, t: string)
    requires a < 0
    requires s != [] && !IsDigit(s[0]) && t != [] && !IsDigit(t[0])
    requires IntToString(a) + s == IntToString(b) + t
    ensures a == b && s == t
  {
    SignOf(a, s);
    SignOf(b, t);
    NegativeForm(a, s);
    NegativeForm(b, t);
    DropSign(NatToString(-a) + s, NatToString(-b) + t);
    NatToStringInjective(-a, s, -b, t);
  }

  /** `str` is injective, even with arbitrary text after the number as long as
      that text starts with a non-digit: `str(a) + s == str(b) + t` forces
      `a == b` and `s == t`. */
  lemma IntToStringInjective(a: int, s: string, b: int, t: string)
    requires s != [] && !IsDigit(s[0]) && t != [] && !IsDigit(t[0])
    requires IntToString(a) + s == IntToString(b) + t
    ensures a == b && s == t
  {
    if a < 0 {
      NegativeInjective(a, s, b, t);
    } else if b < 0 {
      NegativeInjective(b, t, a, s);
    } else {
      NatToStringInjective(a, s, b, t);
    }
  }
}
