/** The two timestamp texts the dispatch pipeline writes and reads, modelled after
    Go's time.Format and time.Parse: a layout is a list of elements, formatting
    prints each element of a date-time and parsing consumes them in order. */
module TimeLayout {
  import opened Wrappers
  import opened Digits

  /** A UTC civil date-time with millisecond precision. */
  datatype DateTime = DateTime(
    year: int, month: int, day: int,
    hour: int, minute: int, second: int, millis: int)

  predicate IsLeap(y: int) {
    y % 4 == 0 && (y % 100 != 0 || y % 400 == 0)
  }

  function DaysIn(month: int, year: int): int {
    if month == 2 then (if IsLeap(year) then 29 else 28)
    else if month == 4 || month == 6 || month == 9 || month == 11 then 30
    else 31
  }

  /** Every field in range, and a year the four-digit year element can print. */
  predicate Valid(t: DateTime) {
    && 0 <= t.year <= 9999
    && 1 <= t.month <= 12
    && 1 <= t.day <= DaysIn(t.month, t.year)
    && 0 <= t.hour < 24
    && 0 <= t.minute < 60
    && 0 <= t.second < 60
    && 0 <= t.millis < 1000
  }

  // ---------------------------------------------------------------------------
  // Layouts

  /** The layout elements used here, named after Go's: "2006", "01", "02",
      "15", "04", "05", ".000", "Z07:00", and a literal character. */
  datatype Elem =
    | LongYear | ZeroMonth | ZeroDay | Hour | ZeroMinute | ZeroSecond
    | FracSecond3 | ZoneZ | Literal(c: char)

  /** "2006-01-02T15:04:05.000Z": the layout of the stream's requestedAt field
      and of ProcessedPayment.processedAt (the final Z is a literal). */
  const MillisLayout: seq<Elem> := [
    LongYear, Literal('-'), ZeroMonth, Literal('-'), ZeroDay, Literal('T'),
    Hour, Literal(':'), ZeroMinute, Literal(':'), ZeroSecond, FracSecond3, Literal('Z')]

  /** time.RFC3339, "2006-01-02T15:04:05Z07:00", for a UTC time. */
  const RFC3339Layout: seq<Elem> := [
    LongYear, Literal('-'), ZeroMonth, Literal('-'), ZeroDay, Literal('T'),
    Hour, Literal(':'), ZeroMinute, Literal(':'), ZeroSecond, ZoneZ]

  function FormatElem(e: Elem, t: DateTime): string
    requires Valid(t)
  {
    match e
    case LongYear => Pad(t.year, 4)
    case ZeroMonth => Pad(t.month, 2)
    case ZeroDay => Pad(t.day, 2)
    case Hour => Pad(t.hour, 2)
    case ZeroMinute => Pad(t.minute, 2)
    case ZeroSecond => Pad(t.second, 2)
    case FracSecond3 => "." + Pad(t.millis, 3)
    case ZoneZ => "Z"
    case Literal(c) => [c]
  }

  function Format(layout: seq<Elem>, t: DateTime): string
    requires Valid(t)
  {
    if layout == [] then [] else FormatElem(layout[0], t) + Format(layout[1..], t)
  }

  /** Exactly n digits at the front of s (Go's fixed-width getnum, and the year's atoi). */
  function Fixed(s: string, n: nat): Option<(nat, string)> {
    if |s| >= n && AllDigits(s[..n]) then Some((DigitsValue(s[..n]), s[n..])) else None
  }

  /** Parses one element; the value it reads goes into the matching field of acc. */
  function ParseElem(e: Elem, s: string, acc: DateTime): Option<(DateTime, string)> {
    match e
    case LongYear =>
      (match Fixed(s, 4) case Some((v, r)) => Some((acc.(year := v), r)) case None => None)
    case ZeroMonth =>
      (match Fixed(s, 2) case Some((v, r)) => Some((acc.(month := v), r)) case None => None)
    case ZeroDay =>
      (match Fixed(s, 2) case Some((v, r)) => Some((acc.(day := v), r)) case None => None)
    case Hour =>
      // not zero-padded: one digit, or two when a second digit follows
      if |s| >= 2 && IsDigit(s[0]) && IsDigit(s[1]) then Some((acc.(hour := DigitsValue(s[..2])), s[2..]))
      else if |s| >= 1 && IsDigit(s[0]) then Some((acc.(hour := DigitsValue(s[..1])), s[1..]))
      else None
    case ZeroMinute =>
      (match Fixed(s, 2) case Some((v, r)) => Some((acc.(minute := v), r)) case None => None)
    case ZeroSecond =>
      (match Fixed(s, 2) case Some((v, r)) => Some((acc.(second := v), r)) case None => None)
    case FracSecond3 =>
      if |s| >= 4 && (s[0] == '.' || s[0] == ',') && AllDigits(s[1..4])
      then Some((acc.(millis := DigitsValue(s[1..4])), s[4..]))
      else None
    case ZoneZ =>
      if |s| >= 1 && s[0] == 'Z' then Some((acc, s[1..])) else None
    case Literal(c) =>
      if |s| >= 1 && s[0] == c then Some((acc, s[1..])) else None
  }

  function ParseElems(layout: seq<Elem>, s: string, acc: DateTime): Option<(DateTime, string)> {
    if layout == [] then Some((acc, s))
    else match ParseElem(layout[0], s, acc)
      case None => None
      case Some((acc', s')) => ParseElems(layout[1..], s', acc')
  }

  datatype ParseError = LayoutMismatch | ExtraText | OutOfRange

  const Unset := DateTime(0, 0, 0, 0, 0, 0, 0)

  /** time.Parse for a layout that names every field: the text must match the
      layout to its end, and every field must be in range (day against its month). */
  function Parse(layout: seq<Elem>, s: string): (r: Result<DateTime, ParseError>)
    ensures r.Ok? ==> Valid(r.value)
  {
    match ParseElems(layout, s, Unset)
    case None => Err(LayoutMismatch)
    case Some((t, rest)) =>
      if rest != [] then Err(ExtraText)
      else if !Valid(t) then Err(OutOfRange)
      else Ok(t)
  }

  /** Format("2006-01-02T15:04:05.000Z"): text that parses back to t. */
  function FormatMillis(t: DateTime): (s: string)
    requires Valid(t)
    ensures ParseMillis(s) == Ok(t)
  {
    ParseFormatMillis(t);
    Format(MillisLayout, t)
  }

  /** time.Parse("2006-01-02T15:04:05.000Z", s): only an in-range date-time. */
  function ParseMillis(s: string): (r: Result<DateTime, ParseError>)
    ensures r.Ok? ==> Valid(r.value)
  {
    Parse(MillisLayout, s)
  }

  /** Format(time.RFC3339) of a UTC time: text the millisecond layout rejects. */
  function FormatRFC3339(t: DateTime): (s: string)
    requires Valid(t)
    ensures ParseMillis(s).Err?
  {
    ParseMillisRejectsRFC3339(t);
    Format(RFC3339Layout, t)
  }

  // ---------------------------------------------------------------------------
  // Round trip

  /** The fields of acc that the layout names, replaced by those of t. */
  function SetFields(layout: seq<Elem>, t: DateTime, acc: DateTime): DateTime {
    if layout == [] then acc else SetFields(layout[1..], t, SetOne(layout[0], t, acc))
  }

  /** The field of acc that one element names, replaced by that of t. */
  function SetOne(e: Elem, t: DateTime, acc: DateTime): DateTime {
    match e
    case LongYear => acc.(year := t.year)
    case ZeroMonth => acc.(month := t.month)
    case ZeroDay => acc.(day := t.day)
    case Hour => acc.(hour := t.hour)
    case ZeroMinute => acc.(minute := t.minute)
    case ZeroSecond => acc.(second := t.second)
    case FracSecond3 => acc.(millis := t.millis)
    case ZoneZ => acc
    case Literal(_) => acc
  }

  /** Go prints the hour with two digits but reads one or two: a layout reads
      back what it prints as long as every hour is followed by a non-digit literal. */
  predicate HourDelimited(layout: seq<Elem>) {
    forall i :: 0 <= i < |layout| && layout[i] == Hour ==>
      i + 1 < |layout| && layout[i + 1].Literal? && !IsDigit(layout[i + 1].c)
  }

  lemma FixedPad(v: nat, n: nat, rest: string)
    requires v < Pow10(n)
    ensures Fixed(Pad(v, n) + rest, n) == Some((v, rest))
  {
    var s := Pad(v, n) + rest;
    assert s[..n] == Pad(v, n);
    assert s[n..] == rest;
    PadValue(v, n);
  }

  lemma ParseFormatElem(e: Elem, t: DateTime, rest: string, acc: DateTime)
    requires Valid(t)
    requires e == Hour ==> |rest| > 0 && !IsDigit(rest[0])
    ensures ParseElem(e, FormatElem(e, t) + rest, acc) == Some((SetOne(e, t, acc), rest))
  {
    var s := FormatElem(e, t) + rest;
    match e
    case LongYear => FixedPad(t.year, 4, rest);
    case ZeroMonth => FixedPad(t.month, 2, rest);
    case ZeroDay => FixedPad(t.day, 2, rest);
    case Hour =>
      PadValue(t.hour, 2);
      assert s[..2] == Pad(t.hour, 2) && s[2..] == rest;
      assert !IsDigit(s[2]);
    case ZeroMinute => FixedPad(t.minute, 2, rest);
    case ZeroSecond => FixedPad(t.second, 2, rest);
    case FracSecond3 =>
      PadValue(t.millis, 3);
      assert s[1..4] == Pad(t.millis, 3) && s[4..] == rest;
    case ZoneZ => assert s[1..] == rest;
    case Literal(c) => assert s[1..] == rest;
  }

  lemma {:induction false} ParseFormatElems(layout: seq<Elem>, t: DateTime, rest: string, acc: DateTime)
    requires Valid(t) && HourDelimited(layout)
    ensures ParseElems(layout, Format(layout, t) + rest, acc) == Some((SetFields(layout, t, acc), rest))
  {
    if layout != [] {
      var tail := Format(layout[1..], t) + rest;
      assert Format(layout, t) + rest == FormatElem(layout[0], t) + tail;
      if layout[0] == Hour {
        assert layout[1].Literal?;
        assert layout[1..] == [layout[1]] + layout[2..];
        assert Format(layout[1..], t) == [layout[1].c] + Format(layout[2..], t);
      }
      ParseFormatElem(layout[0], t, tail, acc);
      assert HourDelimited(layout[1..]) by {
        forall i | 0 <= i < |layout[1..]| && layout[1..][i] == Hour
          ensures i + 1 < |layout[1..]| && layout[1..][i + 1].Literal? && !IsDigit(layout[1..][i + 1].c)
        {
          assert layout[i + 1] == Hour;
        }
      }
      var acc' := SetOne(layout[0], t, acc);
      assert ParseElem(layout[0], Format(layout, t) + rest, acc) == Some((acc', tail));
      ParseFormatElems(layout[1..], t, rest, acc');
    } else {
      assert Format(layout, t) + rest == rest;
    }
  }

  lemma SetOneNamed(e: Elem, t: DateTime, acc: DateTime)
    ensures var r := SetOne(e, t, acc);
      && r.year == (if e == LongYear then t.year else acc.year)
      && r.month == (if e == ZeroMonth then t.month else acc.month)
      && r.day == (if e == ZeroDay then t.day else acc.day)
      && r.hour == (if e == Hour then t.hour else acc.hour)
      && r.minute == (if e == ZeroMinute then t.minute else acc.minute)
      && r.second == (if e == ZeroSecond then t.second else acc.second)
      && r.millis == (if e == FracSecond3 then t.millis else acc.millis)
  {
  }

  /** Each field comes from t when the layout names it, from acc otherwise. */
  lemma {:induction false} SetFieldsNamed(layout: seq<Elem>, t: DateTime, acc: DateTime)
    ensures var r := SetFields(layout, t, acc);
      && r.year == (if LongYear in layout then t.year else acc.year)
      && r.month == (if ZeroMonth in layout then t.month else acc.month)
      && r.day == (if ZeroDay in layout then t.day else acc.day)
      && r.hour == (if Hour in layout then t.hour else acc.hour)
      && r.minute == (if ZeroMinute in layout then t.minute else acc.minute)
      && r.second == (if ZeroSecond in layout then t.second else acc.second)
      && r.millis == (if FracSecond3 in layout then t.millis else acc.millis)
  {
    if layout != [] {
      var acc' := SetOne(layout[0], t, acc);
      assert forall e :: e in layout <==> e == layout[0] || e in layout[1..];
      SetOneNamed(layout[0], t, acc);
      SetFieldsNamed(layout[1..], t, acc');
    }
  }

  /** The millisecond layout reads back exactly the date-time it printed:
      the stream's requestedAt survives the trip at millisecond precision. */
  lemma ParseFormatMillis(t: DateTime)
    requires Valid(t)
    ensures Parse(MillisLayout, Format(MillisLayout, t)) == Ok(t)
  {
    assert HourDelimited(MillisLayout) by {
      forall i | 0 <= i < |MillisLayout| && MillisLayout[i] == Hour
        ensures i + 1 < |MillisLayout| && MillisLayout[i + 1].Literal? && !IsDigit(MillisLayout[i + 1].c)
      {
        assert i == 6;
      }
    }
    assert LongYear in MillisLayout && ZeroMonth in MillisLayout && ZeroDay in MillisLayout;
    assert Hour in MillisLayout && ZeroMinute in MillisLayout && ZeroSecond in MillisLayout;
    assert FracSecond3 in MillisLayout;
    ParseFormat(MillisLayout, t);
  }

  /** A layout that names every field and delimits its hour reads back exactly
      the date-time it printed. */
  lemma ParseFormat(layout: seq<Elem>, t: DateTime)
    requires Valid(t) && HourDelimited(layout)
    requires LongYear in layout && ZeroMonth in layout && ZeroDay in layout && Hour in layout
    requires ZeroMinute in layout && ZeroSecond in layout && FracSecond3 in layout
    ensures Parse(layout, Format(layout, t)) == Ok(t)
  {
    ParseFormatElems(layout, t, [], Unset);
    assert Format(layout, t) + [] == Format(layout, t);
    SetFieldsNamed(layout, t, Unset);
  }

  lemma {:induction false} FormatAppend(a: seq<Elem>, b: seq<Elem>, t: DateTime)
    requires Valid(t)
    ensures Format(a + b, t) == Format(a, t) + Format(b, t)
  {
    if a != [] {
      assert (a + b)[1..] == a[1..] + b;
      FormatAppend(a[1..], b, t);
    } else {
      assert a + b == b;
    }
  }

  lemma {:induction false} ParseElemsAppend(a: seq<Elem>, b: seq<Elem>, s: string, acc: DateTime)
    ensures ParseElems(a + b, s, acc) ==
      match ParseElems(a, s, acc)
      case None => None
      case Some((acc', s')) => ParseElems(b, s', acc')
  {
    if a != [] {
      assert (a + b)[0] == a[0] && (a + b)[1..] == a[1..] + b;
      match ParseElem(a[0], s, acc)
      case None =>
      case Some((acc', s')) => ParseElemsAppend(a[1..], b, s', acc');
    } else {
      assert a + b == b;
    }
  }

  /** The millisecond layout rejects every RFC 3339 text: where it expects the
      fraction of a second, the RFC 3339 text already has its zone letter. */
  lemma ParseMillisRejectsRFC3339(t: DateTime)
    requires Valid(t)
    ensures Parse(MillisLayout, Format(RFC3339Layout, t)).Err?
  {
    var common := MillisLayout[..11];
    assert MillisLayout == common + [FracSecond3, Literal('Z')];
    assert RFC3339Layout == common + [ZoneZ];
    assert HourDelimited(common) by {
      forall i | 0 <= i < |common| && common[i] == Hour
        ensures i + 1 < |common| && common[i + 1].Literal? && !IsDigit(common[i + 1].c)
      {
        assert i == 6;
      }
    }
    FormatAppend(common, [ZoneZ], t);
    assert Format([ZoneZ], t) == "Z";
    ParseFormatElems(common, t, "Z", Unset);
    ParseElemsAppend(common, [FracSecond3, Literal('Z')], Format(RFC3339Layout, t), Unset);
  }

  // ---------------------------------------------------------------------------
  // Unix milliseconds

  /** Days from 0001-01-01 to January 1st of year y (proleptic Gregorian). */
  function DaysBeforeYear(y: int): int {
    365 * (y - 1) + (y - 1) / 4 - (y - 1) / 100 + (y - 1) / 400
  }

  function YearDays(y: int): int {
    if IsLeap(y) then 366 else 365
  }

  /** Days from January 1st to the first of the given month. */
  function DaysBeforeMonth(month: int, year: int): int {
    if month <= 1 then 0 else DaysBeforeMonth(month - 1, year) + DaysIn(month - 1, year)
  }

  /** Days from 1970-01-01 to the date of t. */
  function UnixDay(t: DateTime): int {
    DaysBeforeYear(t.year) - DaysBeforeYear(1970) + DaysBeforeMonth(t.month, t.year) + t.day - 1
  }

  function MillisOfDay(t: DateTime): int {
    ((t.hour * 60 + t.minute) * 60 + t.second) * 1000 + t.millis
  }

  const MillisPerDay := 86400000

  /** time.Time.UnixMilli for a UTC date-time. */
  function UnixMilli(t: DateTime): (ms: int)
    ensures Valid(t) ==> ms / MillisPerDay == UnixDay(t) && ms % MillisPerDay == MillisOfDay(t)
  {
    UnixDay(t) * MillisPerDay + MillisOfDay(t)
  }

  /** Lexicographic order on the fields, year first: strictly earlier in time. */
  predicate Before(a: DateTime, b: DateTime) {
    || a.year < b.year
    || (a.year == b.year && a.month < b.month)
    || (a.year == b.year && a.month == b.month && a.day < b.day)
    || (a.year == b.year && a.month == b.month && a.day == b.day && MillisOfDay(a) < MillisOfDay(b))
  }

  lemma MillisOfDayBounds(t: DateTime)
    requires Valid(t)
    ensures 0 <= MillisOfDay(t) < MillisPerDay
  {
  }

  lemma DivStep4(y: int)
    ensures y / 4 - (y - 1) / 4 == if y % 4 == 0 then 1 else 0
  {
    var q, r := (y - 1) / 4, (y - 1) % 4;
    assert y == 4 * q + r + 1;
    if r == 3 { assert y / 4 == q + 1 && y % 4 == 0; } else { assert y / 4 == q && y % 4 == r + 1; }
  }

  lemma DivStep100(y: int)
    ensures y / 100 - (y - 1) / 100 == if y % 100 == 0 then 1 else 0
  {
    var q, r := (y - 1) / 100, (y - 1) % 100;
    assert y == 100 * q + r + 1;
    if r == 99 { assert y / 100 == q + 1 && y % 100 == 0; } else { assert y / 100 == q && y % 100 == r + 1; }
  }

  lemma DivStep400(y: int)
    ensures y / 400 - (y - 1) / 400 == if y % 400 == 0 then 1 else 0
  {
    var q, r := (y - 1) / 400, (y - 1) % 400;
    assert y == 400 * q + r + 1;
    if r == 399 { assert y / 400 == q + 1 && y % 400 == 0; } else { assert y / 400 == q && y % 400 == r + 1; }
  }

  lemma YearLength(y: int)
    ensures DaysBeforeYear(y + 1) == DaysBeforeYear(y) + YearDays(y)
  {
    DivStep4(y);
    DivStep100(y);
    DivStep400(y);
    MultipleChain(y);
  }

  /** A multiple of 400 is one of 100, and a multiple of 100 is one of 4. */
  lemma MultipleChain(y: int)
    ensures y % 400 == 0 ==> y % 100 == 0
    ensures y % 100 == 0 ==> y % 4 == 0
  {
    if y % 400 == 0 {
      assert y == 100 * (4 * (y / 400));
    }
    if y % 100 == 0 {
      assert y == 4 * (25 * (y / 100));
    }
  }

  lemma {:induction false} DaysBeforeYearMonotone(a: int, b: int)
    requires a <= b
    ensures DaysBeforeYear(a) + (b - a) * 365 <= DaysBeforeYear(b)
    decreases b - a
  {
    if a < b {
      DaysBeforeYearMonotone(a, b - 1);
      YearLength(b - 1);
    }
  }

  lemma {:induction false} DaysBeforeMonthMonotone(m1: int, m2: int, y: int)
    requires 1 <= m1 <= m2
    ensures DaysBeforeMonth(m1, y) + (m2 - m1) * 28 <= DaysBeforeMonth(m2, y)
    decreases m2 - m1
  {
    if m1 < m2 {
      DaysBeforeMonthMonotone(m1, m2 - 1, y);
    }
  }

  lemma DaysBeforeNewYear(y: int)
    ensures DaysBeforeMonth(13, y) == YearDays(y)
  {
    assert DaysBeforeMonth(2, y) == 31;
    assert DaysBeforeMonth(3, y) == 31 + DaysIn(2, y);
    assert DaysBeforeMonth(4, y) == 62 + DaysIn(2, y);
    assert DaysBeforeMonth(5, y) == 92 + DaysIn(2, y);
    assert DaysBeforeMonth(6, y) == 123 + DaysIn(2, y);
    assert DaysBeforeMonth(7, y) == 153 + DaysIn(2, y);
    assert DaysBeforeMonth(8, y) == 184 + DaysIn(2, y);
    assert DaysBeforeMonth(9, y) == 215 + DaysIn(2, y);
    assert DaysBeforeMonth(10, y) == 245 + DaysIn(2, y);
    assert DaysBeforeMonth(11, y) == 276 + DaysIn(2, y);
    assert DaysBeforeMonth(12, y) == 306 + DaysIn(2, y);
  }

  /** A valid date lies inside its year: its day of the year is below the year's length. */
  lemma DayOfYearBound(t: DateTime)
    requires Valid(t)
    ensures 0 <= DaysBeforeMonth(t.month, t.year) + t.day - 1 < YearDays(t.year)
  {
    DaysBeforeMonthMonotone(1, t.month, t.year);
    DaysBeforeMonthMonotone(t.month + 1, 13, t.year);
    DaysBeforeNewYear(t.year);
  }

  lemma UnixDayBefore(a: DateTime, b: DateTime)
    requires Valid(a) && Valid(b)
    requires a.year < b.year || (a.year == b.year && a.month < b.month)
    ensures UnixDay(a) < UnixDay(b)
  {
    DayOfYearBound(a);
    DayOfYearBound(b);
    if a.year < b.year {
      YearLength(a.year);
      DaysBeforeYearMonotone(a.year + 1, b.year);
    } else {
      DaysBeforeMonthMonotone(a.month + 1, b.month, a.year);
    }
  }

  /** Unix milliseconds preserve chronological order: the processed store's
      score order is the order of the processedAt timestamps. */
  lemma UnixMilliOrder(a: DateTime, b: DateTime)
    requires Valid(a) && Valid(b)
    ensures Before(a, b) ==> UnixMilli(a) < UnixMilli(b)
    ensures UnixMilli(a) == UnixMilli(b) ==> a == b
  {
    MillisOfDayBounds(a);
    MillisOfDayBounds(b);
    if a.year < b.year || (a.year == b.year && a.month < b.month) {
      UnixDayBefore(a, b);
    } else if b.year < a.year || (a.year == b.year && b.month < a.month) {
      UnixDayBefore(b, a);
    }
  }
}
