/** Decimal digit strings: the digits Go prints for fixed-width numbers and the
    values they read back as, shared by the time layouts and the amount text. */
module Digits {
  predicate IsDigit(c: char) {
    '0' <= c <= '9'
  }

  predicate AllDigits(s: string) {
    forall i :: 0 <= i < |s| ==> IsDigit(s[i])
  }

  function Pow10(n: nat): (p: nat)
    ensures p >= 1
  {
    if n == 0 then 1 else 10 * Pow10(n - 1)
  }

  function DigitChar(d: nat): char
    requires d < 10
  {
    ('0' as int + d) as char
  }

  /** The value of a run of decimal digits, most significant first. */
  function DigitsValue(s: string): nat
    requires AllDigits(s)
  {
    if s == [] then 0
    else DigitsValue(s[..|s| - 1]) * 10 + (s[|s| - 1] as int - '0' as int)
  }

  /** The last n decimal digits of v, zero-padded on the left. */
  function Pad(v: nat, n: nat): (s: string)
    ensures |s| == n && AllDigits(s)
  {
    if n == 0 then [] else Pad(v / 10, n - 1) + [DigitChar(v % 10)]
  }

  lemma {:induction false} PadValue(v: nat, n: nat)
    requires v < Pow10(n)
    ensures DigitsValue(Pad(v, n)) == v
  {
    if n > 0 {
      var s := Pad(v, n);
      assert s[..|s| - 1] == Pad(v / 10, n - 1);
      assert v / 10 < Pow10(n - 1);
      PadValue(v / 10, n - 1);
    }
  }
}
