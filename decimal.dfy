/** Decimal rendering of integers, as `std::to_string(int)` produces it for the
    pair-spread note names, with its inverse. */
module Decimal {

  function DigitChar(d: nat): char
    requires d < 10
  {
    ('0' as int + d) as char
  }

  function DigitValue(c: char): nat
  {
    if '0' <= c <= '9' then c as int - '0' as int else 0
  }

  predicate IsDigit(c: char)
  {
    '0' <= c <= '9'
  }

  /** Shortest decimal digits of n, most significant first. */
  function NatToString(n: nat): (s: string)
    decreases n
  {
    if n < 10 then [DigitChar(n)] else NatToString(n / 10) + [DigitChar(n % 10)]
  }

  /** `std::to_string` of an int: a minus sign before the digits of a negative value. */
  function IntToString(x: int): string
  {
    if x < 0 then "-" + NatToString(-x) else NatToString(x)
  }

  /** Value of a string of decimal digits, most significant first. */
  function ParseNat(s: string): nat
  {
    if s == [] then 0 else ParseNat(s[..|s| - 1]) * 10 + DigitValue(s[|s| - 1])
  }

  function ParseInt(s: string): int
  {
    if |s| > 0 && s[0] == '-' then -(ParseNat(s[1..]) as int) else ParseNat(s)
  }

  /** The rendering of a natural number is a non-empty string of digits. */
  lemma {:induction false} NatDigits(n: nat)
    ensures |NatToString(n)| >= 1
    ensures forall i :: 0 <= i < |NatToString(n)| ==> IsDigit(NatToString(n)[i])
    decreases n
  {
    if n >= 10 {
      NatDigits(n / 10);
    }
  }

  /** The rendering of an int starts with a minus sign exactly when it is negative. */
  lemma IntSign(x: int)
    ensures |IntToString(x)| >= 1
    ensures IntToString(x)[0] == '-' <==> x < 0
  {
    NatDigits(if x < 0 then -x else x);
  }

  lemma {:induction false} NatRoundTrip(n: nat)
    ensures ParseNat(NatToString(n)) == n
    decreases n
  {
    var s := NatToString(n);
    if n >= 10 {
      NatRoundTrip(n / 10);
      assert s[..|s| - 1] == NatToString(n / 10);
    }
  }

  /** Reading back a rendered integer gives the integer: the rendering loses nothing. */
  lemma IntRoundTrip(x: int)
    ensures ParseInt(IntToString(x)) == x
  {
    var s := IntToString(x);
    IntSign(x);
    if x < 0 {
      var n := NatToString(-x);
      assert s == "-" + n;
      assert s[1..] == n;
      NatRoundTrip(-x);
      assert ParseInt(s) == -(ParseNat(n) as int);
    } else {
      assert s == NatToString(x) && s[0] != '-';
      NatRoundTrip(x);
    }
  }
}
