/**
  Go's `%d` verb on an `int`, as `fmt.Sprintf` writes it, and the inverse
  reading used to state that the text loses nothing. The model's integers are
  unbounded; Go's `int` is 64 bits wide and every 64-bit value formats the
  same way.
 */
module Decimal {
  import opened Errors

  function DigitChar(d: nat): (c: char)
    requires d < 10
    ensures '0' <= c <= '9'
  {
    ('0' as int + d) as char
  }

  function DigitValue(c: char): (d: nat)
    requires '0' <= c <= '9'
    ensures d < 10 && DigitChar(d) == c
  {
    c as int - '0' as int
  }

  /** A non-empty run of ASCII digits. */
  predicate IsDigits(s: string)
  {
    |s| > 0 && forall i :: 0 <= i < |s| ==> '0' <= s[i] <= '9'
  }

  /** Decimal digits of `n`, most significant first, without leading zeros. */
  function FormatNat(n: nat): (r: string)
    ensures IsDigits(r)
    ensures |r| > 1 ==> r[0] != '0'
    decreases n
  {
    if n < 10 then [DigitChar(n)] else FormatNat(n / 10) + [DigitChar(n % 10)]
  }

  /** `fmt.Sprintf("%d", n)`: a minus sign for negative values, then the digits. */
  function FormatInt(n: int): (r: string)
    ensures |r| > 0
    ensures r[0] == '-' <==> n < 0
    ensures forall i :: 0 <= i < |r| ==> r[i] == '-' || '0' <= r[i] <= '9'
  {
    if n < 0 then "-" + FormatNat(-n) else FormatNat(n)
  }

  /** The value of a run of digits. */
  function DigitsValue(s: string): nat
    requires IsDigits(s)
    decreases |s|
  {
    if |s| == 1 then DigitValue(s[0])
    else DigitsValue(s[..|s| - 1]) * 10 + DigitValue(s[|s| - 1])
  }

  /** Reads back an optionally signed decimal integer. */
  function ParseInt(s: string): Option<int>
  {
    if |s| > 0 && s[0] == '-' then
      if IsDigits(s[1..]) then Some(0 - DigitsValue(s[1..]) as int) else None
    else if IsDigits(s) then Some(DigitsValue(s))
    else None
  }

  lemma {:induction false} FormatNatRoundTrip(n: nat)
    ensures DigitsValue(FormatNat(n)) == n
    decreases n
  {
    if n >= 10 {
      var s := FormatNat(n);
      assert s[..|s| - 1] == FormatNat(n / 10);
      FormatNatRoundTrip(n / 10);
    }
  }

  /** Formatting with `%d` loses nothing: the text reads back as the same integer. */
  lemma FormatIntRoundTrip(n: int)
    ensures ParseInt(FormatInt(n)) == Some(n)
  {
    if n < 0 {
      assert FormatInt(n)[1..] == FormatNat(-n);
      FormatNatRoundTrip(-n);
    } else {
      FormatNatRoundTrip(n);
    }
  }
}
