/** Money arithmetic and the decimal text of an amount: Go's math.Round, the
    summary's rounding to cents, and strconv.ParseFloat on plain decimal text. */
module Numbers {
  import opened Wrappers
  import opened Digits

  /** math.Round: the nearest integer, halves rounded away from zero. */
  function Round(x: real): (r: int)
    ensures x >= 0.0 ==> x - 0.5 < r as real <= x + 0.5
    ensures x < 0.0 ==> x - 0.5 <= r as real < x + 0.5
  {
    if x >= 0.0 then (x + 0.5).Floor else -((-x + 0.5).Floor)
  }

  /** math.Round(x*100)/100: x rounded to two decimal places, a whole number
      of cents at most half a cent away from x. */
  function RoundCents(x: real): (r: real)
    ensures (r * 100.0).Floor as real == r * 100.0
    ensures -0.005 <= r - x <= 0.005
  {
    var n := Round(x * 100.0);
    assert n as real / 100.0 - x == (n as real - x * 100.0) / 100.0;
    assert n as real / 100.0 * 100.0 == n as real;
    n as real / 100.0
  }

  /** An amount that is already a whole number of cents is left as it is. */
  lemma RoundCentsWhole(cents: int)
    ensures RoundCents(cents as real / 100.0) == cents as real / 100.0
  {
    var x := cents as real / 100.0;
    assert x * 100.0 == cents as real;
    var r := Round(cents as real);
    assert cents as real - 0.5 <= r as real <= cents as real + 0.5;
    assert r == cents;
  }

  /** Rounding twice is rounding once. */
  lemma RoundCentsIdempotent(x: real)
    ensures RoundCents(RoundCents(x)) == RoundCents(x)
  {
    RoundCentsWhole(Round(x * 100.0));
  }

  // ---------------------------------------------------------------------------
  // Decimal text

  /** The number of digits at the front of s. */
  function LeadingDigits(s: string): (n: nat)
    ensures n <= |s| && AllDigits(s[..n])
    ensures n < |s| ==> !IsDigit(s[n])
  {
    if s == [] || !IsDigit(s[0]) then 0
    else
      var n := 1 + LeadingDigits(s[1..]);
      assert s[..n] == [s[0]] + s[1..][..n - 1];
      n
  }

  /** Digits, optionally followed by a point and more digits, with at least
      one digit in all (".5" and "5." are accepted, as ParseFloat does). */
  function ParseUnsigned(s: string): (r: Option<real>)
    ensures r.Some? ==> |s| > 0 && r.value >= 0.0
  {
    var n := LeadingDigits(s);
    var whole := DigitsValue(s[..n]) as real;
    if n == |s| then (if n > 0 then Some(whole) else None)
    else if s[n] == '.' && AllDigits(s[n + 1..]) && (n > 0 || n + 1 < |s|)
    then Some(whole + FractionValue(s[n + 1..]))
    else None
  }

  /** The value of the digits after a decimal point: "25" is 0.25. */
  function FractionValue(f: string): (v: real)
    requires AllDigits(f)
    ensures 0.0 <= v < 1.0
  {
    if f == [] then 0.0
    else ((f[0] as int - '0' as int) as real + FractionValue(f[1..])) / 10.0
  }

  /** strconv.ParseFloat restricted to plain decimal notation with an optional sign. */
  function ParseDecimal(s: string): (r: Option<real>)
    ensures r.Some? ==> |s| > 0
    ensures r.Some? && r.value < 0.0 ==> s[0] == '-'
    ensures |s| > 0 && IsDigit(s[0]) ==> r == ParseUnsigned(s)
  {
    if |s| > 0 && (s[0] == '-' || s[0] == '+') then
      match ParseUnsigned(s[1..])
      case None => None
      case Some(v) => Some(if s[0] == '-' then -v else v)
    else ParseUnsigned(s)
  }

  /** The number of decimal digits of n (one for zero). */
  function NumDigits(n: nat): (d: nat)
    ensures d >= 1 && n < Pow10(d)
  {
    if n < 10 then 1 else 1 + NumDigits(n / 10)
  }

  /** An amount of cents as go-redis writes a float64 field: strconv's shortest
      'f' form, so 12.50 is "12.5", 12.00 is "12" and -0.05 is "-0.05". */
  function CentsText(cents: int): string {
    if cents < 0 then "-" + UnsignedCentsText(-cents) else UnsignedCentsText(cents)
  }

  function UnsignedCentsText(a: nat): string {
    DecimalText(a / 100, a % 100 / 10, a % 100 % 10)
  }

  /** Whole part q, then the tenths and hundredths digits with trailing zeros
      (and then the point) dropped. */
  function DecimalText(q: nat, tenths: nat, hundredths: nat): string
    requires tenths < 10 && hundredths < 10
  {
    var whole := Pad(q, NumDigits(q));
    if hundredths != 0 then whole + "." + [DigitChar(tenths), DigitChar(hundredths)]
    else if tenths != 0 then whole + "." + [DigitChar(tenths)]
    else whole
  }

  /** The digits of a whole number read back as that number. */
  lemma ParseWhole(q: nat)
    ensures ParseUnsigned(Pad(q, NumDigits(q))) == Some(q as real)
  {
    var w := Pad(q, NumDigits(q));
    assert LeadingDigits(w) == |w|;
    assert w[..|w|] == w;
    PadValue(q, NumDigits(q));
  }

  /** Digits, a point and digits read back as the whole part plus the
      fraction scaled by its number of digits. */
  lemma ParsePoint(w: string, f: string)
    requires |w| > 0 && AllDigits(w) && |f| > 0 && AllDigits(f)
    ensures ParseUnsigned(w + "." + f)
            == Some(DigitsValue(w) as real + FractionValue(f))
  {
    var s := w + "." + f;
    LeadingDigitsPoint(w, f);
    var n := LeadingDigits(s);
    assert s[..n] == w && s[n] == '.' && s[n + 1..] == f;
    assert n < |s| && n > 0 && AllDigits(s[n + 1..]);
    assert ParseUnsigned(s) == Some(DigitsValue(s[..n]) as real + FractionValue(s[n + 1..]));
  }

  /** The digits before a point are exactly the leading digits. */
  lemma {:induction false} LeadingDigitsPoint(w: string, f: string)
    requires AllDigits(w)
    ensures LeadingDigits(w + "." + f) == |w|
  {
    if w != [] {
      assert (w + "." + f)[1..] == w[1..] + "." + f;
      LeadingDigitsPoint(w[1..], f);
    }
  }

  lemma FractionOne(t: nat)
    requires t < 10
    ensures FractionValue([DigitChar(t)]) == t as real / 10.0
  {
    assert [DigitChar(t)][1..] == [];
  }

  lemma FractionTwo(t: nat, u: nat)
    requires t < 10 && u < 10
    ensures FractionValue([DigitChar(t), DigitChar(u)]) == (10 * t + u) as real / 100.0
  {
    assert [DigitChar(t), DigitChar(u)][1..] == [DigitChar(u)];
    FractionOne(u);
  }

  /** Whole digits, a point and one digit read back as q + t/10. */
  lemma ParseOneDecimal(q: nat, t: nat)
    requires t < 10
    ensures ParseUnsigned(Pad(q, NumDigits(q)) + "." + [DigitChar(t)]) == Some(q as real + t as real / 10.0)
  {
    ParsePoint(Pad(q, NumDigits(q)), [DigitChar(t)]);
    FractionOne(t);
    PadValue(q, NumDigits(q));
  }

  /** Whole digits, a point and two digits read back as q + (10t + u)/100. */
  lemma ParseTwoDecimals(q: nat, t: nat, u: nat)
    requires t < 10 && u < 10
    ensures ParseUnsigned(Pad(q, NumDigits(q)) + "." + [DigitChar(t), DigitChar(u)])
            == Some(q as real + (10 * t + u) as real / 100.0)
  {
    ParsePoint(Pad(q, NumDigits(q)), [DigitChar(t), DigitChar(u)]);
    FractionTwo(t, u);
    PadValue(q, NumDigits(q));
  }

  /** A leading minus sign negates. */
  lemma ParseMinus(u: string, v: real, w: real)
    requires ParseUnsigned(u) == Some(v) && w == -v
    ensures ParseDecimal("-" + u) == Some(w)
  {
    assert ("-" + u)[1..] == u;
  }

  /** Whole cents split into units, tenths and hundredths. */
  lemma CentsSplit(a: nat)
    ensures (a / 100) as real + (10 * (a % 100 / 10) + a % 100 % 10) as real / 100.0 == a as real / 100.0
  {
    var r := a % 100;
    assert r == 10 * (r / 10) + r % 10;
    assert a == 100 * (a / 100) + r;
    HundredthsValue(a, a / 100, r);
  }

  lemma HundredthsValue(a: int, q: int, r: int)
    requires a == 100 * q + r
    ensures q as real + r as real / 100.0 == a as real / 100.0
  {
  }

  /** The text of an unsigned amount is non-empty and starts with a digit. */
  lemma UnsignedCentsTextHead(a: nat)
    ensures |UnsignedCentsText(a)| > 0 && IsDigit(UnsignedCentsText(a)[0])
  {
    var w := Pad(a / 100, NumDigits(a / 100));
    assert UnsignedCentsText(a)[0] == w[0];
  }

  /** Decimal text without trailing zeros reads back as its value. */
  lemma ParseDecimalText(q: nat, t: nat, u: nat)
    requires t < 10 && u < 10
    ensures ParseUnsigned(DecimalText(q, t, u)) == Some(q as real + (10 * t + u) as real / 100.0)
  {
    if u != 0 {
      ParseTwoDecimals(q, t, u);
    } else if t != 0 {
      ParseOneDecimal(q, t);
    } else {
      ParseWhole(q);
    }
  }

  lemma ParseUnsignedCentsText(a: nat)
    ensures |UnsignedCentsText(a)| > 0 && IsDigit(UnsignedCentsText(a)[0])
    ensures ParseUnsigned(UnsignedCentsText(a)) == Some(a as real / 100.0)
  {
    UnsignedCentsTextHead(a);
    ParseDecimalText(a / 100, a % 100 / 10, a % 100 % 10);
    CentsSplit(a);
  }

  lemma ParseNegativeCentsText(cents: int)
    requires cents < 0
    ensures ParseDecimal("-" + UnsignedCentsText(-cents)) == Some(cents as real / 100.0)
  {
    var a: nat := -cents;
    ParseUnsignedCentsText(a);
    ParseMinus(UnsignedCentsText(a), a as real / 100.0, cents as real / 100.0);
    assert ParseDecimal("-" + UnsignedCentsText(a)) == Some(cents as real / 100.0);
  }

  /** Amount text with two decimal places reads back as exactly that amount. */
  lemma ParseCentsText(cents: int)
    ensures ParseDecimal(CentsText(cents)) == Some(cents as real / 100.0)
  {
    if cents < 0 {
      ParseNegativeCentsText(cents);
    } else {
      ParseUnsignedCentsText(cents);
    }
  }
}
