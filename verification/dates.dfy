/**
 * DateFormatter: the fixed-width timestamp `YYYY-MM-DD HH:MM:SS.mmm+HHMM` that
 * starts every line of the simple pipeline, written from precomputed tables
 * (years 1900..2099, two-digit numbers 0..60, three-digit numbers 0..999).
 */
module Dates {

  /** The date-time fields the formatter reads from a zoned date-time. */
  datatype DateFields = DateFields(
    year: int, month: int, day: int,
    hour: int, minute: int, second: int,
    nano: int, offsetSeconds: int)

  // ---------------------------------------------------------------- digits

  predicate IsDigit(c: char)
  {
    '0' <= c <= '9'
  }

  predicate AllDigits(s: string)
  {
    forall i :: 0 <= i < |s| ==> IsDigit(s[i])
  }

  function Digit(d: int): (c: char)
    requires 0 <= d < 10
    ensures IsDigit(c) && c as int - '0' as int == d
  {
    ('0' as int + d) as char
  }

  function DigitValue(c: char): (d: nat)
    requires IsDigit(c)
    ensures d < 10
  {
    c as int - '0' as int
  }

  /** The number a string of decimal digits denotes; the reading side of every field. */
  function ValueOf(s: string): nat
    requires AllDigits(s)
  {
    if |s| == 0 then 0 else ValueOf(s[..|s| - 1]) * 10 + DigitValue(s[|s| - 1])
  }

  /** 10^k: a one followed by k zeros, the least number whose text has k + 1 digits. */
  function Pow10(k: nat): (p: nat)
    ensures p >= 1
    ensures |DecimalText(p)| == k + 1
    ensures forall i :: 0 < i < |DecimalText(p)| ==> DecimalText(p)[i] == '0'
    ensures DecimalText(p)[0] == '1'
  {
    if k == 0 then 1
    else
      var q := Pow10(k - 1);
      assert 10 * q / 10 == q && 10 * q % 10 == 0;
      10 * q
  }

  /** `Integer.toString` of a non-negative number: shortest decimal text. */
  function DecimalText(n: nat): (r: string)
    ensures |r| >= 1 && AllDigits(r)
    ensures ValueOf(r) == n
    ensures |r| > 1 ==> r[0] != '0'
  {
    if n < 10 then [Digit(n)]
    else
      var front := DecimalText(n / 10);
      var r := front + [Digit(n % 10)];
      assert r[..|r| - 1] == front;
      r
  }

  /** The text of n has at most k digits exactly when n < 10^k. */
  lemma {:induction false} DecimalTextLength(n: nat, k: nat)
    requires k >= 1
    ensures |DecimalText(n)| <= k <==> n < Pow10(k)
  {
    if n < 10 {
      assert DecimalText(n) == [Digit(n)];
      if k > 0 {
        PowAtLeastTen(k);
      }
    } else {
      assert |DecimalText(n)| == |DecimalText(n / 10)| + 1;
      if k > 1 {
        DecimalTextLength(n / 10, k - 1);
        assert n < Pow10(k) <==> n / 10 < Pow10(k - 1);
      }
    }
  }

  lemma {:induction false} PowAtLeastTen(k: nat)
    requires k >= 1
    ensures Pow10(k) >= 10
  {
    if k > 1 {
      PowAtLeastTen(k - 1);
    }
  }

  /** `Integer.toString` of any int: a minus sign before the magnitude's digits. */
  function IntText(n: int): (r: string)
    ensures n >= 0 ==> AllDigits(r) && ValueOf(r) == n
    ensures n < 0 ==> |r| >= 2 && r[0] == '-' && AllDigits(r[1..]) && ValueOf(r[1..]) == -n
  {
    if n < 0 then "-" + DecimalText(-n) else DecimalText(n)
  }

  /** Java's `year % 10000`: truncating division, so the remainder keeps the year's sign. */
  function YearRem(year: int): (r: int)
    ensures -10000 < r < 10000
    ensures year >= 0 ==> r >= 0
    ensures year < 0 ==> r <= 0
    ensures -10000 < year < 10000 ==> r == year
  {
    if year >= 0 then year % 10000 else -((-year) % 10000)
  }

  // ---------------------------------------------------------------- tables

  /** `TWO_DIGIT_INTS[i]`, i.e. `String.format("%02d", i)`; the table covers 0..60 only. */
  function TwoDigits(i: int): (r: string)
    requires 0 <= i <= 60
    ensures |r| == 2 && AllDigits(r)
    ensures ValueOf(r) == i
  {
    var r := [Digit(i / 10), Digit(i % 10)];
    assert r[..1] == [Digit(i / 10)];
    assert ValueOf(r[..1]) == i / 10 by {
      assert r[..1][..0] == [];
    }
    r
  }

  /** `THREE_DIGIT_INTS[i]`, i.e. `String.format("%03d", i)`. */
  function ThreeDigits(i: int): (r: string)
    requires 0 <= i < 1000
    ensures |r| == 3 && AllDigits(r)
    ensures ValueOf(r) == i
  {
    var r := [Digit(i / 100), Digit(i / 10 % 10), Digit(i % 10)];
    assert r[..2][..1] == [Digit(i / 100)];
    assert r[..2] == [Digit(i / 100), Digit(i / 10 % 10)];
    assert ValueOf(r[..2][..1]) == i / 100 by {
      assert r[..2][..1][..0] == [];
    }
    assert ValueOf(r[..2]) == i / 10;
    r
  }

  /** `COMMON_YEARS[i]`, i.e. `Integer.toString(i + 1900)`. */
  function CommonYear(i: int): (r: string)
    requires 0 <= i < 200
    ensures |r| == 4 && AllDigits(r)
    ensures ValueOf(r) == i + 1900
  {
    DecimalTextLength(i + 1900, 4);
    DecimalTextLength(i + 1900, 3);
    DecimalText(i + 1900)
  }

  // ---------------------------------------------------------------- fields

  /** The year field: right-aligned in four columns, padded from a three-space string. */
  predicate YearFits(year: int)
  {
    -1000 < YearRem(year)
  }

  /** The general branch of the year field: `year % 10000`, padded to width 4. */
  function PaddedYear(year: int): (r: string)
    requires YearFits(year)
    ensures |r| == 4
  {
    var ys := IntText(YearRem(year));
    assert 1 <= |ys| <= 4 by {
      if YearRem(year) >= 0 {
        DecimalTextLength(YearRem(year), 4);
      } else {
        DecimalTextLength(-YearRem(year), 3);
      }
    }
    "   "[..4 - |ys|] + ys
  }

  function YearText(year: int): (r: string)
    requires YearFits(year)
    ensures |r| == 4
  {
    if 1900 <= year < 2100 then CommonYear(year - 1900) else PaddedYear(year)
  }

  /** The years table is only a shortcut: every year prints as its padded `year % 10000`. */
  lemma YearTableAgreesWithGeneralPath(year: int)
    requires YearFits(year)
    ensures YearText(year) == PaddedYear(year)
  {
    if 1900 <= year < 2100 {
      assert YearRem(year) == year;
      assert |CommonYear(year - 1900)| == 4;
    }
  }

  /** Years 1900..2099 print as their own four decimal digits. */
  lemma CommonYearsPrintThemselves(year: int)
    requires 1900 <= year < 2100
    ensures YearFits(year)
    ensures AllDigits(YearText(year)) && ValueOf(YearText(year)) == year
  {
  }

  /** A non-negative `year % 10000` prints as leading spaces followed by its digits. */
  lemma PaddedYearReadsBack(year: int)
    requires YearFits(year)
    requires year >= 0
    ensures var r := YearText(year);
      exists k :: 0 <= k < 4 && (forall i :: 0 <= i < k ==> r[i] == ' ')
        && AllDigits(r[k..]) && ValueOf(r[k..]) == year % 10000
  {
    YearTableAgreesWithGeneralPath(year);
    var ys := IntText(YearRem(year));
    var r := YearText(year);
    var k := 4 - |ys|;
    assert r[k..] == ys;
  }

  /**
   * Every year, negative ones included, prints as leading spaces followed by
   * `Integer.toString(year % 10000)`, the remainder taken with Java's sign.
   */
  lemma YearTextIsPaddedRemainder(year: int)
    requires YearFits(year)
    ensures var r := YearText(year);
      exists k :: 0 <= k < 4 && (forall i :: 0 <= i < k ==> r[i] == ' ')
        && r[k..] == IntText(YearRem(year))
  {
    YearTableAgreesWithGeneralPath(year);
    var ys := IntText(YearRem(year));
    var r := YearText(year);
    var k := 4 - |ys|;
    assert r[k..] == ys;
  }

  /** The zone offset `+HHMM` or `-HHMM`: whole hours and minutes of |seconds|. */
  function OffsetText(seconds: int): (r: string)
    requires -61 * 3600 < seconds < 61 * 3600
    ensures |r| == 5
    ensures r[0] == (if seconds >= 0 then '+' else '-')
    ensures AllDigits(r[1..3]) && AllDigits(r[3..5])
    ensures var abs := if seconds < 0 then -seconds else seconds;
      ValueOf(r[1..3]) == abs / 3600 && ValueOf(r[3..5]) == abs / 60 % 60
  {
    var sign := if seconds < 0 then '-' else '+';
    var abs := if seconds < 0 then -seconds else seconds;
    var offsetMinutes := abs / 60;
    var offsetHours := offsetMinutes / 60;
    var hh := TwoDigits(offsetHours);
    var mm := TwoDigits(offsetMinutes % 60);
    var r := [sign] + hh + mm;
    assert r[1..3] == hh && r[3..5] == mm;
    r
  }

  /** Dropping the leftover seconds: the printed offset is |seconds| rounded down to a minute. */
  lemma OffsetDropsSeconds(seconds: int)
    requires -61 * 3600 < seconds < 61 * 3600
    ensures var r := OffsetText(seconds);
      var abs := if seconds < 0 then -seconds else seconds;
      ValueOf(r[1..3]) * 3600 + ValueOf(r[3..5]) * 60 <= abs < ValueOf(r[1..3]) * 3600 + ValueOf(r[3..5]) * 60 + 60
  {
  }

  // ---------------------------------------------------------------- formatTo

  /** What `formatTo` needs of its input: every table index in range, the year in four columns. */
  predicate Formattable(f: DateFields)
  {
    && YearFits(f.year)
    && 0 <= f.month <= 60 && 0 <= f.day <= 60
    && 0 <= f.hour <= 60 && 0 <= f.minute <= 60 && 0 <= f.second <= 60
    && 0 <= f.nano < 1000000000
    && -61 * 3600 < f.offsetSeconds < 61 * 3600
  }

  /** The ranges a zoned date-time guarantees (offsets are at most 18 hours). */
  predicate IsDateTime(f: DateFields)
  {
    && YearFits(f.year)
    && 1 <= f.month <= 12 && 1 <= f.day <= 31
    && 0 <= f.hour <= 23 && 0 <= f.minute <= 59 && 0 <= f.second <= 59
    && 0 <= f.nano <= 999999999
    && -18 * 3600 <= f.offsetSeconds <= 18 * 3600
  }

  type DateTime = f: DateFields | IsDateTime(f) witness DateFields(1970, 1, 1, 0, 0, 0, 0, 0)

  lemma DateTimesAreFormattable(f: DateFields)
    requires IsDateTime(f)
    ensures Formattable(f)
  {
  }

  /** `YYYY-MM-DD`: the year field, then two-digit month and day. */
  function DatePart(f: DateFields): (r: string)
    requires Formattable(f)
    ensures |r| == 10
    ensures r[..4] == YearText(f.year) && r[4] == '-' && r[7] == '-'
    ensures r[5..7] == TwoDigits(f.month) && r[8..10] == TwoDigits(f.day)
  {
    var r := YearText(f.year) + "-" + TwoDigits(f.month) + "-" + TwoDigits(f.day);
    assert r[..4] == YearText(f.year) && r[5..7] == TwoDigits(f.month) && r[8..10] == TwoDigits(f.day);
    r
  }

  /** `HH:MM:SS`: two-digit hour, minute and second. */
  function TimePart(f: DateFields): (r: string)
    requires Formattable(f)
    ensures |r| == 8
    ensures r[2] == ':' && r[5] == ':'
    ensures r[..2] == TwoDigits(f.hour) && r[3..5] == TwoDigits(f.minute) && r[6..8] == TwoDigits(f.second)
  {
    var r := TwoDigits(f.hour) + ":" + TwoDigits(f.minute) + ":" + TwoDigits(f.second);
    assert r[..2] == TwoDigits(f.hour) && r[3..5] == TwoDigits(f.minute) && r[6..8] == TwoDigits(f.second);
    r
  }

  /** `DateFormatter.formatTo`: the date, a space, the time, a dot, the milliseconds and the offset. */
  function FormatDate(f: DateFields): (r: string)
    requires Formattable(f)
    ensures |r| == 28
  {
    DatePart(f) + " " + TimePart(f) + "." + ThreeDigits(f.nano / 1000000) + OffsetText(f.offsetSeconds)
  }

  /** The timestamp has fixed separators and every field at fixed columns. */
  lemma FormatDateLayout(f: DateFields)
    requires Formattable(f)
    ensures var r := FormatDate(f);
      && r[4] == '-' && r[7] == '-' && r[10] == ' '
      && r[13] == ':' && r[16] == ':' && r[19] == '.'
      && r[23] == (if f.offsetSeconds >= 0 then '+' else '-')
      && r[..4] == YearText(f.year)
      && r[5..7] == TwoDigits(f.month) && r[8..10] == TwoDigits(f.day)
      && r[11..13] == TwoDigits(f.hour) && r[14..16] == TwoDigits(f.minute) && r[17..19] == TwoDigits(f.second)
      && r[20..23] == ThreeDigits(f.nano / 1000000)
      && r[23..] == OffsetText(f.offsetSeconds)
  {
    var date := DatePart(f);
    var time := TimePart(f);
    var r := FormatDate(f);
    assert r == date + " " + time + "." + ThreeDigits(f.nano / 1000000) + OffsetText(f.offsetSeconds);
    assert r[..10] == date && r[11..19] == time;
    assert r[..4] == date[..4] && r[5..7] == date[5..7] && r[8..10] == date[8..10];
    assert r[11..13] == time[..2] && r[14..16] == time[3..5] && r[17..19] == time[6..8];
    assert r[20..23] == ThreeDigits(f.nano / 1000000) && r[23..] == OffsetText(f.offsetSeconds);
  }

  /** Reading the timestamp back: every numeric field is recovered from its fixed columns. */
  lemma FormatDateReadsBack(f: DateFields)
    requires Formattable(f)
    ensures var r := FormatDate(f);
      && AllDigits(r[5..7]) && ValueOf(r[5..7]) == f.month
      && AllDigits(r[8..10]) && ValueOf(r[8..10]) == f.day
      && AllDigits(r[11..13]) && ValueOf(r[11..13]) == f.hour
      && AllDigits(r[14..16]) && ValueOf(r[14..16]) == f.minute
      && AllDigits(r[17..19]) && ValueOf(r[17..19]) == f.second
      && AllDigits(r[20..23]) && ValueOf(r[20..23]) == f.nano / 1000000
      && (r[23] == '+' <==> f.offsetSeconds >= 0)
      && ValueOf(r[24..26]) * 3600 + ValueOf(r[26..28]) * 60
         == (if f.offsetSeconds < 0 then -f.offsetSeconds else f.offsetSeconds) / 60 * 60
  {
    FormatDateLayout(f);
    var r := FormatDate(f);
    var o := OffsetText(f.offsetSeconds);
    assert r[24..26] == o[1..3] && r[26..28] == o[3..5];
  }

  /** The timestamp's first four columns are spaces and then the year's `year % 10000`, sign included. */
  lemma FormatDateYearReadsBack(f: DateFields)
    requires Formattable(f)
    ensures var r := FormatDate(f);
      exists k :: 0 <= k < 4 && (forall i :: 0 <= i < k ==> r[i] == ' ')
        && r[k..4] == IntText(YearRem(f.year))
  {
    FormatDateLayout(f);
    YearTextIsPaddedRemainder(f.year);
    var r := FormatDate(f);
    var y := YearText(f.year);
    var k :| 0 <= k < 4 && (forall i :: 0 <= i < k ==> y[i] == ' ') && y[k..] == IntText(YearRem(f.year));
    assert r[k..4] == y[k..];
  }
}
