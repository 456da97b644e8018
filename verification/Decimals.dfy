/** Unsigned 64-bit numbers, and their decimal rendering as `{}` formats them. */
module Decimals {
  /** One past the largest 64-bit unsigned value. */
  const U64_LIMIT: nat := 0x1_0000_0000_0000_0000

  /** `saturating_add(1)` on a 64-bit unsigned value. */
  function SaturatingSuccessor(n: nat): nat {
    if n + 1 < U64_LIMIT then n + 1 else U64_LIMIT - 1
  }

  function Digit(d: nat): (c: char)
    requires d < 10
    ensures IsDigit(c) && DigitValue(c) == d
  {
    '0' + d as char
  }

  predicate IsDigit(c: char) {
    '0' <= c <= '9'
  }

  function DigitValue(c: char): nat
    requires IsDigit(c)
  {
    c as int - '0' as int
  }

  function Decimal(n: nat): (s: string)
    ensures |s| >= 1 && forall i :: 0 <= i < |s| ==> IsDigit(s[i])
  {
    if n < 10 then [Digit(n)] else Decimal(n / 10) + [Digit(n % 10)]
  }

  predicate IsDigits(s: string) {
    forall i :: 0 <= i < |s| ==> IsDigit(s[i])
  }

  function ReadDecimal(s: string): nat
    requires IsDigits(s)
  {
    if s == [] then 0 else 10 * ReadDecimal(s[..|s| - 1]) + DigitValue(s[|s| - 1])
  }

  /** The rendered digits read back to the number, so distinct numbers render apart. */
  lemma {:induction false} DecimalRoundTrip(n: nat)
    ensures ReadDecimal(Decimal(n)) == n
  {
    if n >= 10 {
      DecimalRoundTrip(n / 10);
      var s := Decimal(n);
      assert s[..|s| - 1] == Decimal(n / 10);
    } else {
      assert Decimal(n)[..0] == [];
    }
  }

  function Pow10(k: nat): nat {
    if k == 0 then 1 else 10 * Pow10(k - 1)
  }

  lemma {:induction false} DecimalLength(n: nat, k: nat)
    requires k >= 1 && n < Pow10(k)
    ensures |Decimal(n)| <= k
  {
    if n >= 10 {
      assert Pow10(0) == 1;
      DecimalLength(n / 10, k - 1);
    }
  }

  lemma U64DecimalLength(n: nat)
    requires n < U64_LIMIT
    ensures |Decimal(n)| <= 20
  {
    assert Pow10(5) == 100000;
    assert Pow10(10) == 100000 * Pow10(5);
    assert Pow10(15) == 100000 * Pow10(10);
    assert Pow10(20) == 100000 * Pow10(15);
    DecimalLength(n, 20);
  }
}
