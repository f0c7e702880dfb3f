/** Decimal rendering of integers, as JavaScript template literals print
    whole numbers (`${i}`, `${n} days`). */
module Decimal {

  predicate IsDigit(c: char) {
    '0' <= c <= '9'
  }

  function Digit(d: nat): (c: char)
    requires d < 10
    ensures IsDigit(c)
    ensures c as int == '0' as int + d
  {
    ('0' as int + d) as char
  }

  function NatToString(n: nat): (r: string)
    ensures |r| >= 1
    ensures forall i :: 0 <= i < |r| ==> IsDigit(r[i])
    ensures n < 10 <==> |r| == 1
  {
    if n < 10 then [Digit(n)] else NatToString(n / 10) + [Digit(n % 10)]
  }

  predicate AllDigits(s: string) {
    forall i :: 0 <= i < |s| ==> IsDigit(s[i])
  }

  /** The number a string of digits denotes, read most significant first. */
  function Value(s: string): nat
    requires AllDigits(s)
  {
    if s == [] then 0 else Value(s[..|s| - 1]) * 10 + (s[|s| - 1] as int - '0' as int)
  }

  /** Reading the printed number back gives the number. */
  lemma {:induction false} NatToStringValue(n: nat)
    ensures Value(NatToString(n)) == n
  {
    var r := NatToString(n);
    if n >= 10 {
      assert r[..|r| - 1] == NatToString(n / 10);
      NatToStringValue(n / 10);
    } else {
      assert r[..0] == [];
    }
  }

  /** Different numbers print differently, so keys built from indices never collide. */
  lemma {:induction false} NatToStringInjective(a: nat, b: nat)
    requires NatToString(a) == NatToString(b)
    ensures a == b
  {
    if a >= 10 && b >= 10 {
      var sa, sb := NatToString(a), NatToString(b);
      assert sa[..|sa| - 1] == NatToString(a / 10);
      assert sb[..|sb| - 1] == NatToString(b / 10);
      NatToStringInjective(a / 10, b / 10);
      assert Digit(a % 10) == sa[|sa| - 1] == Digit(b % 10);
    }
  }

  function IntToString(n: int): (r: string)
    ensures |r| >= 1
    ensures n < 0 <==> r[0] == '-'
  {
    if n < 0 then "-" + NatToString(-n) else NatToString(n)
  }

  /** What a printed whole number looks like: digits, after a '-' when negative. */
  predicate IsNumeral(s: string) {
    if s != [] && s[0] == '-' then AllDigits(s[1..]) else AllDigits(s)
  }

  /** The whole number a numeral denotes. */
  function IntValue(s: string): int
    requires IsNumeral(s)
  {
    if s != [] && s[0] == '-' then 0 - Value(s[1..]) as int else Value(s)
  }

  /** Reading the printed whole number back gives the number. */
  lemma IntToStringValue(n: int)
    ensures IsNumeral(IntToString(n))
    ensures IntValue(IntToString(n)) == n
  {
    var r := IntToString(n);
    if n < 0 {
      assert r[1..] == NatToString(-n);
      NatToStringValue(-n);
    } else {
      NatToStringValue(n);
    }
  }

  /** Different whole numbers print differently. */
  lemma IntToStringInjective(a: int, b: int)
    requires IntToString(a) == IntToString(b)
    ensures a == b
  {
    if a < 0 && b < 0 {
      assert NatToString(-a) == IntToString(a)[1..] == IntToString(b)[1..] == NatToString(-b);
      NatToStringInjective(-a, -b);
    } else if a >= 0 && b >= 0 {
      NatToStringInjective(a, b);
    }
  }
}
