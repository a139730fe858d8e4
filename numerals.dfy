/**
 * How an integer total is written into text: `str(n)` (an f-string
 * placeholder `{n}`) and `format(n, ",")` (a placeholder `{n:,}`, which puts a
 * comma between groups of three digits).
 */
module Numerals {

  predicate IsDigit(c: char) { '0' <= c <= '9' }

  predicate AllDigits(s: string) {
    forall i :: 0 <= i < |s| ==> IsDigit(s[i])
  }

  function DigitChar(d: nat): (c: char)
    requires d < 10
    ensures IsDigit(c) && c as int - '0' as int == d
  {
    ('0' as int + d) as char
  }

  /** The decimal digits of a natural number, most significant first, without leading zeros. */
  function NatDigits(n: nat): (r: string)
    ensures |r| > 0 && AllDigits(r)
    ensures r[0] == '0' <==> n == 0
    decreases n
  {
    if n < 10 then [DigitChar(n)] else NatDigits(n / 10) + [DigitChar(n % 10)]
  }

  /** `str(n)` for an integer: a minus sign for a negative number, then its digits. */
  function Decimal(n: int): (r: string)
    ensures IsDecimalText(r)
    ensures r[0] == '-' <==> n < 0
  {
    if n < 0 then "-" + NatDigits(-n) else NatDigits(n)
  }

  /** Text that `Decimal` can produce the shape of: an optional minus sign and at least one digit. */
  predicate IsDecimalText(s: string) {
    if |s| > 0 && s[0] == '-' then |s| > 1 && AllDigits(s[1..]) else |s| > 0 && AllDigits(s)
  }

  /** Reads back a run of digits. */
  function ParseNat(s: string): nat
    requires AllDigits(s)
  {
    if |s| == 0 then 0 else ParseNat(s[..|s| - 1]) * 10 + (s[|s| - 1] as int - '0' as int)
  }

  /** Reads back `Decimal`'s text. */
  function ParseDecimal(s: string): int
    requires IsDecimalText(s)
  {
    if s[0] == '-' then -(ParseNat(s[1..]) as int) else ParseNat(s)
  }

  lemma {:induction false} ParseNatDigits(n: nat)
    ensures ParseNat(NatDigits(n)) == n
    decreases n
  {
    if n >= 10 {
      ParseNatDigits(n / 10);
      var s := NatDigits(n);
      assert s[..|s| - 1] == NatDigits(n / 10);
    }
  }

  /** `Decimal` never writes a space or a comma, and reading its text back gives the number. */
  lemma DecimalRoundTrip(n: int)
    ensures ' ' !in Decimal(n) && ',' !in Decimal(n)
    ensures IsDecimalText(Decimal(n)) && ParseDecimal(Decimal(n)) == n
  {
    if n < 0 {
      ParseNatDigits(-n);
      assert Decimal(n)[1..] == NatDigits(-n);
    } else {
      ParseNatDigits(n);
    }
  }

  /** Two different totals are never written the same way. */
  lemma DecimalInjective(a: int, b: int)
    requires Decimal(a) == Decimal(b)
    ensures a == b
  {
    DecimalRoundTrip(a);
    DecimalRoundTrip(b);
  }

  /** Three digits of a number below 1000, with leading zeros. */
  function Pad3(m: nat): (r: string)
    requires m < 1000
    ensures |r| == 3 && AllDigits(r)
  {
    [DigitChar(m / 100), DigitChar(m / 10 % 10), DigitChar(m % 10)]
  }

  function GroupedNat(n: nat): (r: string)
    ensures |r| > 0 && IsDigit(r[0])
    decreases n
  {
    if n < 1000 then NatDigits(n) else GroupedNat(n / 1000) + "," + Pad3(n % 1000)
  }

  /** `format(n, ",")` for an integer. */
  function Grouped(n: int): (r: string)
    ensures |r| > 0 && (r[0] == '-' <==> n < 0)
  {
    if n < 0 then "-" + GroupedNat(-n) else GroupedNat(n)
  }

  /** The text with every comma taken out. */
  function WithoutCommas(s: string): (r: string)
    ensures ',' !in r
  {
    if |s| == 0 then "" else (if s[0] == ',' then "" else [s[0]]) + WithoutCommas(s[1..])
  }

  lemma {:induction false} WithoutCommasAppend(a: string, b: string)
    ensures WithoutCommas(a + b) == WithoutCommas(a) + WithoutCommas(b)
  {
    if |a| > 0 {
      var head: string := if a[0] == ',' then "" else [a[0]];
      assert (a + b)[0] == a[0] && (a + b)[1..] == a[1..] + b;
      assert WithoutCommas(a + b) == head + WithoutCommas(a[1..] + b);
      WithoutCommasAppend(a[1..], b);
      assert WithoutCommas(a) == head + WithoutCommas(a[1..]);
    } else {
      assert a + b == b;
    }
  }

  lemma WithoutCommasOfDigits(s: string)
    requires AllDigits(s)
    ensures WithoutCommas(s) == s
  {
    if |s| > 0 {
      WithoutCommasOfDigits(s[1..]);
    }
  }

  /** The last three decimal digits of `n` are the digits of `n % 1000`. */
  lemma LastThreeDigits(n: nat)
    ensures n / 10 / 10 / 10 == n / 1000
    ensures n / 10 / 10 % 10 == n % 1000 / 100
    ensures n / 10 % 10 == n % 1000 / 10 % 10
    ensures n % 10 == n % 1000 % 10
  {
  }

  /** The last three digits of a number of at least four digits form one group. */
  lemma NatDigitsSplit(n: nat)
    requires n >= 1000
    ensures NatDigits(n) == NatDigits(n / 1000) + Pad3(n % 1000)
  {
    LastThreeDigits(n);
    var m := n % 1000;
    var d1, d2, d3 := DigitChar(m / 100), DigitChar(m / 10 % 10), DigitChar(m % 10);
    assert NatDigits(n / 10 / 10) == NatDigits(n / 1000) + [d1];
    assert NatDigits(n / 10) == NatDigits(n / 10 / 10) + [d2];
    assert NatDigits(n) == NatDigits(n / 10) + [d3];
  }

  lemma {:induction false} GroupedNatDigits(n: nat)
    ensures WithoutCommas(GroupedNat(n)) == NatDigits(n)
    decreases n
  {
    if n < 1000 {
      WithoutCommasOfDigits(NatDigits(n));
    } else {
      GroupedNatDigits(n / 1000);
      WithoutCommasAppend(GroupedNat(n / 1000) + ",", Pad3(n % 1000));
      WithoutCommasAppend(GroupedNat(n / 1000), ",");
      WithoutCommasOfDigits(Pad3(n % 1000));
      NatDigitsSplit(n);
    }
  }

  /**
   * The grouped text carries exactly the digits of `str(n)`: taking its
   * commas out gives `Decimal(n)`, which reads back as `n`.
   */
  lemma {:induction false} GroupedIsDecimal(n: int)
    ensures WithoutCommas(Grouped(n)) == Decimal(n)
    ensures ParseDecimal(WithoutCommas(Grouped(n))) == n
  {
    if n < 0 {
      GroupedNatDigits(-n);
      WithoutCommasAppend("-", GroupedNat(-n));
    } else {
      GroupedNatDigits(n);
    }
    DecimalRoundTrip(n);
  }
}
