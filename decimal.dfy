/**
 * Decimal text of integers, as the C formatter writes it for the %d, %u and
 * 64-bit integer conversions, together with its inverse. The inverse is the
 * reference used to state that a printed number denotes the value printed.
 */
module Decimal {

  predicate IsDigit(c: char) {
    '0' <= c <= '9'
  }

  predicate AllDigits(s: string) {
    forall i :: 0 <= i < |s| ==> IsDigit(s[i])
  }

  function DigitChar(d: nat): (c: char)
    requires d < 10
    ensures IsDigit(c) && c as int - '0' as int == d
  {
    ('0' as int + d) as char
  }

  /** Decimal text of a non-negative number: no sign, no leading zero. */
  function NatToDec(n: nat): (s: string)
    ensures |s| >= 1 && AllDigits(s)
    ensures |s| > 1 ==> s[0] != '0'
    ensures n < 10 <==> |s| == 1
    decreases n
  {
    if n < 10 then [DigitChar(n)] else NatToDec(n / 10) + [DigitChar(n % 10)]
  }

  /** The number a string of digits denotes. */
  function DecValue(s: string): nat
    requires AllDigits(s)
  {
    if s == [] then 0 else 10 * DecValue(s[..|s| - 1]) + (s[|s| - 1] as int - '0' as int)
  }

  lemma {:induction false} DecRoundTrip(n: nat)
    ensures DecValue(NatToDec(n)) == n
    decreases n
  {
    if n >= 10 {
      DecRoundTrip(n / 10);
      var s := NatToDec(n);
      assert s[..|s| - 1] == NatToDec(n / 10);
    }
  }

  lemma NatToDecInjective(a: nat, b: nat)
    requires NatToDec(a) == NatToDec(b)
    ensures a == b
  {
    DecRoundTrip(a);
    DecRoundTrip(b);
  }

  /** A 16-bit port number never needs more than five digits. */
  lemma {:induction false} DecLengthBound(n: nat, digits: nat)
    requires n < Pow10(digits)
    requires digits >= 1
    ensures |NatToDec(n)| <= digits
    decreases digits
  {
    if n >= 10 {
      assert digits > 1;
      DecLengthBound(n / 10, digits - 1);
    }
  }

  function Pow10(k: nat): (p: nat)
    ensures p >= 1
  {
    if k == 0 then 1 else 10 * Pow10(k - 1)
  }

  /** Decimal text of a signed number, as %d writes it. */
  function IntToDec(i: int): (s: string)
    ensures |s| >= 1
    ensures i < 0 <==> s[0] == '-'
    ensures i >= 0 ==> s == NatToDec(i)
    ensures i < 0 ==> s[1..] == NatToDec(-i)
  {
    if i < 0 then "-" + NatToDec(-i) else NatToDec(i)
  }

  /** The number a signed decimal denotes: the inverse of IntToDec. */
  function SignedValue(s: string): int
    requires |s| >= 1
    requires s[0] == '-' ==> AllDigits(s[1..])
    requires s[0] != '-' ==> AllDigits(s)
  {
    if s[0] == '-' then -(DecValue(s[1..]) as int) else DecValue(s)
  }

  lemma SignedRoundTrip(i: int)
    ensures SignedValue(IntToDec(i)) == i
  {
    if i < 0 {
      DecRoundTrip(-i);
    } else {
      DecRoundTrip(i);
    }
  }

  /** Neither form of decimal text contains a separator of the query syntax. */
  lemma DecHasNoSeparator(i: int, c: char)
    requires c == ':' || c == ',' || c == '=' || c == '*'
    ensures c !in IntToDec(i)
  {
  }
}
