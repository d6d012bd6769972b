/**
  The few JavaScript string operations the report code applies to numbers:
  `String(n)` for an integer, `padStart(2, '0')` and `slice(-2)`, together
  with the decimal value of a digit string, which is their inverse.
 */
module Decimal {

  predicate IsDigit(c: char) {
    '0' <= c <= '9'
  }

  predicate AllDigits(s: string) {
    forall i :: 0 <= i < |s| ==> IsDigit(s[i])
  }

  function DigitChar(d: nat): (c: char)
    requires d < 10
    ensures IsDigit(c)
    ensures c as int - '0' as int == d
  {
    ('0' as int + d) as char
  }

  function DigitValue(c: char): (d: nat)
    requires IsDigit(c)
    ensures d < 10 && DigitChar(d) == c
  {
    c as int - '0' as int
  }

  /**
    `String(n)` for a non-negative integer below 10^21 (above that JavaScript
    switches to exponent notation): its decimal digits, no leading zero.
   */
  function NatToString(n: nat): (s: string)
    ensures 1 <= |s| && AllDigits(s)
    ensures n >= 10 ==> s[0] != '0'
    decreases n
  {
    if n < 10 then [DigitChar(n)] else NatToString(n / 10) + [DigitChar(n % 10)]
  }

  /** `String(y)` for any integer: a minus sign before the digits of a negative one. */
  function IntToString(y: int): (s: string)
    ensures 1 <= |s|
    ensures y >= 0 ==> s == NatToString(y)
    ensures y < 0 ==> s == "-" + NatToString(-y)
  {
    if y < 0 then "-" + NatToString(-y) else NatToString(y)
  }

  /** The number a string of decimal digits denotes. */
  function DigitsValue(s: string): nat
    requires AllDigits(s)
  {
    if s == [] then 0 else DigitsValue(s[..|s| - 1]) * 10 + DigitValue(s[|s| - 1])
  }

  /** `s.padStart(2, '0')`: zeros in front until the string has two characters. */
  function PadStart2(s: string): (r: string)
    ensures |r| == if |s| < 2 then 2 else |s|
    ensures r[|r| - |s|..] == s
    ensures forall i :: 0 <= i < |r| - |s| ==> r[i] == '0'
  {
    if |s| == 0 then "00" else if |s| == 1 then ['0'] + s else s
  }

  /** `s.slice(-2)`: the last two characters, or the whole string when it is shorter. */
  function SliceLast2(s: string): (r: string)
    ensures |r| == if |s| < 2 then |s| else 2
    ensures r == s[|s| - |r|..]
  {
    if |s| < 2 then s else s[|s| - 2..]
  }

  lemma {:induction false} NatToStringValue(n: nat)
    ensures DigitsValue(NatToString(n)) == n
    decreases n
  {
    var s := NatToString(n);
    if n >= 10 {
      NatToStringValue(n / 10);
      assert s[..|s| - 1] == NatToString(n / 10);
    }
  }

  /** Distinct numbers print differently. */
  lemma NatToStringInjective(a: nat, b: nat)
    ensures NatToString(a) == NatToString(b) ==> a == b
  {
    NatToStringValue(a);
    NatToStringValue(b);
  }

  /** The number of characters `String(n)` has. */
  lemma {:induction false} NatToStringLength(n: nat)
    ensures |NatToString(n)| == 1 <==> n < 10
    ensures |NatToString(n)| == 2 <==> 10 <= n < 100
  {
    if n >= 100 {
      NatToStringLength(n / 10);
    }
  }

  /** Padding a number below one hundred gives two digits that still denote it. */
  lemma Pad2Value(n: nat)
    requires n < 100
    ensures |PadStart2(NatToString(n))| == 2
    ensures AllDigits(PadStart2(NatToString(n)))
    ensures DigitsValue(PadStart2(NatToString(n))) == n
  {
    var s := NatToString(n);
    NatToStringLength(n);
    NatToStringValue(n);
    var p := PadStart2(s);
    if n < 10 {
      assert p == ['0', DigitChar(n)];
      assert p[..1] == ['0'];
      assert DigitsValue(['0']) == 0 by {
        assert ['0'][..0] == [];
      }
    }
  }

  /** The last two characters of `String(y)`, for y >= 0, denote y mod 100. */
  lemma LastTwoValue(y: nat)
    ensures AllDigits(SliceLast2(NatToString(y)))
    ensures DigitsValue(SliceLast2(NatToString(y))) == y % 100
  {
    if y < 10 {
      NatToStringValue(y);
    } else {
      var q := y / 10;
      var d1, d0 := q % 10, y % 10;
      var r := SliceLast2(NatToString(y));
      LastTwoChars(y);
      assert r == [DigitChar(d1), DigitChar(d0)];
      TwoDigitsValue(d1, d0);
      assert DigitsValue(r) == d1 * 10 + d0;
      TwoLowDigits(y);
    }
  }

  lemma LastTwoChars(y: nat)
    requires y >= 10
    ensures SliceLast2(NatToString(y)) == [DigitChar(y / 10 % 10), DigitChar(y % 10)]
  {
    var q := y / 10;
    var hi := NatToString(q);
    assert NatToString(y) == hi + [DigitChar(y % 10)];
    assert hi[|hi| - 1] == DigitChar(q % 10) by {
      if q >= 10 {
        assert hi == NatToString(q / 10) + [DigitChar(q % 10)];
      }
    }
  }

  lemma TwoDigitsValue(d1: nat, d0: nat)
    requires d1 < 10 && d0 < 10
    ensures DigitsValue([DigitChar(d1), DigitChar(d0)]) == d1 * 10 + d0
  {
    var r := [DigitChar(d1), DigitChar(d0)];
    assert r[..1] == [DigitChar(d1)];
    assert [DigitChar(d1)][..0] == [];
    assert DigitsValue([DigitChar(d1)]) == d1;
    assert DigitsValue(r) == DigitsValue([DigitChar(d1)]) * 10 + DigitValue(DigitChar(d0));
  }

  lemma TwoLowDigits(y: nat)
    ensures y % 100 == (y / 10) % 10 * 10 + y % 10
  {
    var q := y / 10;
    assert y == 10 * q + y % 10;
    assert q == 10 * (q / 10) + q % 10;
    assert y == 100 * (q / 10) + (q % 10 * 10 + y % 10);
  }
}
