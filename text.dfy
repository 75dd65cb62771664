/** Rendering of numbers inside messages, as PHP string interpolation writes them. */
module Text {

  function DigitChar(d: nat): (c: char)
    requires d < 10
    ensures '0' <= c <= '9'
  {
    "0123456789"[d]
  }

  predicate IsDigits(s: string) {
    forall i :: 0 <= i < |s| ==> '0' <= s[i] <= '9'
  }

  /** Decimal digits of `n`, most significant first, without leading zeros. */
  function NatToString(n: nat): (s: string)
    ensures |s| >= 1 && IsDigits(s)
    ensures n < 10 <==> |s| == 1
  {
    if n < 10 then [DigitChar(n)] else NatToString(n / 10) + [DigitChar(n % 10)]
  }

  /** Value of a string of decimal digits. */
  function DigitsValue(s: string): nat
    requires IsDigits(s)
  {
    if s == [] then 0 else 10 * DigitsValue(s[..|s| - 1]) + (s[|s| - 1] - '0') as nat
  }

  /** Reading back what NatToString wrote gives the number. */
  lemma {:induction false} NatToStringRoundTrip(n: nat)
    ensures DigitsValue(NatToString(n)) == n
  {
    if n >= 10 {
      NatToStringRoundTrip(n / 10);
      var s := NatToString(n);
      assert s[..|s| - 1] == NatToString(n / 10);
    }
  }

  /**
   * A two-decimal amount given in cents, as PHP renders the float holding it: the integer
   * part, then the fractional digits with trailing zeros dropped ("16", "2.5", "0.05").
   */
  function CentsToString(cents: int): (s: string)
    ensures |s| >= 1
  {
    if cents < 0 then "-" + UnsignedCentsToString(-cents) else UnsignedCentsToString(cents)
  }

  function UnsignedCentsToString(cents: nat): (s: string)
    ensures |s| >= 1
  {
    NatToString(cents / 100) + FractionToString(cents % 100)
  }

  /** The digits after the decimal point of a fraction in cents, trailing zeros dropped. */
  function FractionToString(frac: nat): string
    requires frac < 100
  {
    if frac == 0 then []
    else if frac % 10 == 0 then ['.', DigitChar(frac / 10)]
    else ['.', DigitChar(frac / 10), DigitChar(frac % 10)]
  }

  /** A whole amount is written without a fractional part. */
  lemma CentsToStringWhole(units: nat)
    ensures CentsToString(100 * units) == NatToString(units)
  {
    assert (100 * units) / 100 == units && (100 * units) % 100 == 0;
    assert FractionToString(0) == [];
  }
}
