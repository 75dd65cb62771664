/**
 * Monetary amounts. Every amount column of a spin is decimal(10,2), so amounts are held as
 * integer cents and aggregates are exact; rounding happens once, where the source calls
 * round(x, 2), and follows PHP: halves round away from zero.
 */
module Money {

  /** An amount in hundredths of a currency unit. */
  type Cents = int

  /**
   * num / den rounded to the nearest integer, halves away from zero. With num in cents this is
   * round(num / den / 100, 2) expressed again in cents.
   */
  function RoundDiv(num: int, den: int): (r: int)
    requires den > 0
    // r is within half a unit of num / den ...
    ensures num >= 0 ==> 2 * r * den - den <= 2 * num < 2 * r * den + den
    // ... and a tie goes away from zero on either side
    ensures num < 0 ==> 2 * r * den - den < 2 * num <= 2 * r * den + den
  {
    if num >= 0 then UpperHalf(num, den) else 0 - UpperHalf(-num, den) as int
  }

  /** floor(num / den + 1/2) for num >= 0. */
  function UpperHalf(num: nat, den: int): (q: nat)
    requires den > 0
    ensures 2 * q * den - den <= 2 * num < 2 * q * den + den
  {
    var q := (2 * num + den) / (2 * den);
    DivisionBounds(2 * num + den, 2 * den);
    assert 2 * q * den == q * (2 * den);
    q
  }

  lemma DivisionBounds(a: nat, b: int)
    requires b > 0
    ensures (a / b) * b <= a < (a / b) * b + b
  {
  }

  /** Rounding an exact multiple gives the multiplier back. */
  lemma RoundDivExact(k: int, den: int)
    requires den > 0
    ensures RoundDiv(k * den, den) == k
  {
    var r := RoundDiv(k * den, den);
    assert (2 * r - 2 * k - 1) * den == 2 * r * den - den - 2 * (k * den);
    assert (2 * k - 2 * r - 1) * den == 2 * (k * den) - 2 * r * den - den;
    if k >= 0 {
      NonPositiveFactor(2 * r - 2 * k - 1, den);
      NegativeFactor(2 * k - 2 * r - 1, den);
    } else {
      NegativeFactor(2 * r - 2 * k - 1, den);
      NonPositiveFactor(2 * k - 2 * r - 1, den);
    }
  }

  /** A quotient of quantities between 0 and m * den rounds to a value between 0 and m. */
  lemma RoundDivWithin(num: int, den: int, m: int)
    requires den > 0 && 0 <= num <= m * den
    ensures 0 <= RoundDiv(num, den) <= m
  {
    var r := RoundDiv(num, den);
    assert (2 * r - 2 * m - 1) * den == 2 * r * den - den - 2 * (m * den);
    NonPositiveFactor(2 * r - 2 * m - 1, den);
  }

  lemma NonPositiveFactor(a: int, den: int)
    requires den > 0 && a * den <= 0
    ensures a <= 0
  {
  }

  lemma NegativeFactor(a: int, den: int)
    requires den > 0 && a * den < 0
    ensures a < 0
  {
  }
}
