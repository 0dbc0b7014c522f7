/** Decimal numerals, as `str` prints a non-negative integer. */
module Decimals {

  function Digit(n: nat): char
    requires n < 10
  {
    ['0', '1', '2', '3', '4', '5', '6', '7', '8', '9'][n]
  }

  predicate IsDigit(c: char)
  {
    '0' <= c <= '9'
  }

  function Decimal(n: nat): string
  {
    if n < 10 then [Digit(n)] else Decimal(n / 10) + [Digit(n % 10)]
  }

  /** Reading a numeral back. */
  function Value(s: string): nat
    requires forall c :: c in s ==> IsDigit(c)
  {
    if s == [] then 0
    else
      assert IsDigit(s[|s| - 1]);
      10 * Value(s[..|s| - 1]) + (s[|s| - 1] as int - '0' as int)
  }

  lemma {:induction false} DecimalRoundTrip(n: nat)
    ensures Decimal(n) != [] && (forall c :: c in Decimal(n) ==> IsDigit(c))
    ensures Value(Decimal(n)) == n
  {
    if n >= 10 {
      DecimalRoundTrip(n / 10);
      var s := Decimal(n);
      assert s[..|s| - 1] == Decimal(n / 10);
    }
  }

  function Power10(k: nat): nat
  {
    if k == 0 then 1 else 10 * Power10(k - 1)
  }

  /** A numeral has at most k digits exactly below the k-th power of ten. */
  lemma {:induction false} DecimalLength(n: nat, k: nat)
    requires k >= 1
    ensures |Decimal(n)| <= k <==> n < Power10(k)
  {
    if k == 1 {
      assert Power10(1) == 10 * Power10(0);
    } else if n < 10 {
      SmallPower(k);
    } else {
      DecimalLength(n / 10, k - 1);
    }
  }

  lemma {:induction false} SmallPower(k: nat)
    requires k >= 1
    ensures Power10(k) >= 10
  {
    if k > 1 {
      SmallPower(k - 1);
    }
  }
}
