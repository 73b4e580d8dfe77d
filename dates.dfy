/**
  Calendar dates as the portal's JavaScript `Date` values carry them: a proleptic
  Gregorian year, a month numbered from 0 (January) as `getMonth` numbers it, and a
  day of the month. Time zones are not modelled: every instant is local time in
  milliseconds since 1970-01-01 00:00.
 */
module Dates {
  import opened Options
  import Text

  datatype Date = Date(year: int, month: int, day: int)

  /** The Gregorian leap rule. */
  predicate IsLeapYear(y: int) {
    y % 4 == 0 && (y % 100 != 0 || y % 400 == 0)
  }

  /** April, June, September and November. */
  predicate HasThirtyDays(m: int) {
    m == 3 || m == 5 || m == 8 || m == 10
  }

  /** The length of month `m` (0 = January) of year `y`. */
  function DaysInMonth(y: int, m: int): (n: int)
    requires 0 <= m < 12
    ensures 28 <= n <= 31
    ensures m == 1 ==> n <= 29
    ensures m != 1 ==> n >= 30
    ensures m == 1 ==> (n == 29 <==> IsLeapYear(y))
    ensures m != 1 ==> (n == 30 <==> HasThirtyDays(m))
  {
    if m == 1 then (if IsLeapYear(y) then 29 else 28)
    else if HasThirtyDays(m) then 30
    else 31
  }

  predicate ValidDate(d: Date) {
    0 <= d.month < 12 && 1 <= d.day <= DaysInMonth(d.year, d.month)
  }

  // ---------- Day numbers: an independent closed form -----------------------

  /**
    Days from a fixed origin to the 1st of March of year `y`: 365 a year plus one for
    every multiple of 4, less one for every multiple of 100, plus one for every
    multiple of 400 (leap days counted from March, so February is the last month).
   */
  function MarchBase(y: int): int {
    365 * y + y / 4 - y / 100 + y / 400
  }

  /** Days from the 1st of March to the 1st of month `m` (0 = January) in the year counted from March. */
  function MarchOffset(m: int): int
    requires 0 <= m < 12
  {
    var mp := (m + 10) % 12;
    (153 * mp + 2) / 5
  }

  /**
    Days since 1970-01-01 of (year, month, day), computed from the leap-day counts and
    the month offsets counted from March, without any table of month lengths. Days past
    the end of the month continue into the next month, as the `Date` constructor lets them.
   */
  function DayNumber(y: int, m: int, d: int): int
    requires 0 <= m < 12
  {
    var sy := if m < 2 then y - 1 else y;
    MarchBase(sy) + MarchOffset(m) + d - 1 - 719468
  }

  function DayOf(date: Date): int
    requires 0 <= date.month < 12
  {
    DayNumber(date.year, date.month, date.day)
  }

  /** `getDay()`: 0 = Sunday ... 6 = Saturday; 1970-01-01 was a Thursday. */
  function Weekday(date: Date): (w: int)
    requires 0 <= date.month < 12
    ensures 0 <= w < 7
  {
    (DayOf(date) + 4) % 7
  }

  /** The epoch is day 0, and it was a Thursday. */
  lemma EpochIsThursday()
    ensures DayNumber(1970, 0, 1) == 0 && Weekday(Date(1970, 0, 1)) == 4
  {
    assert MarchBase(1969) == 719162;
    assert MarchOffset(0) == 306;
  }

  /**
    The day-of-week algorithm of Appendix B of RFC 3339 (0 = Sunday), for a 1-based
    month: months are counted from March, the year split into century and year of century.
    Its operands are never negative for years from 1 on, so C's truncating division
    and Dafny's floor division agree.
   */
  function Rfc3339DayOfWeek(year: int, month: int, day: int): int
    requires year >= 1 && 1 <= month <= 12 && day >= 1
  {
    var m := if month - 2 < 1 then month + 10 else month - 2;
    var y := if month - 2 < 1 then year - 1 else year;
    var cent, yy := y / 100, y % 100;
    ((26 * m - 2) / 10 + day + yy + yy / 4 + cent / 4 + 5 * cent) % 7
  }

  /** The month term of RFC 3339's algorithm for month `m` (0 = January). */
  function Rfc3339MonthTerm(m: int): int
    requires 0 <= m < 12
  {
    var rm := if m + 1 - 2 < 1 then m + 11 else m - 1;
    (26 * rm - 2) / 10
  }

  /** The two month terms differ by 5 modulo 7 in every month. */
  lemma MonthTermsAgree(m: int) returns (k: int)
    requires 0 <= m < 12
    ensures MarchOffset(m) - Rfc3339MonthTerm(m) - 5 == 7 * k
  {
    if m < 2 {
      k := 4 * m + 39;
      if m == 0 {} else {}
    } else {
      k := 4 * m - 9;
      if m == 2 {} else if m == 3 {} else if m == 4 {} else if m == 5 {} else if m == 6 {}
      else if m == 7 {} else if m == 8 {} else if m == 9 {} else if m == 10 {} else {}
    }
  }

  /** The leap-day counts of a year, from its century and its year of century. */
  lemma CenturySplit(sy: int)
    ensures var c, yy := sy / 100, sy % 100;
            sy == 100 * c + yy && sy / 4 == 25 * c + yy / 4 && sy / 400 == c / 4
  {
    var c, yy := sy / 100, sy % 100;
    assert sy == 100 * c + yy;
    assert sy == 4 * (25 * c + yy / 4) + yy % 4;
    assert sy == 400 * (c / 4) + (100 * (c % 4) + yy);
  }

  lemma ModOfDifference(a: int, b: int, k: int)
    requires a - b == 7 * k
    ensures a % 7 == b % 7
  {
    var q := b / 7;
    assert b == 7 * q + b % 7;
    assert a == 7 * (q + k) + b % 7;
  }

  /** The weekday computed from day numbers is the weekday of RFC 3339's algorithm. */
  lemma {:induction false} WeekdayMatchesRfc3339(y: int, m: int, d: int)
    requires y >= 1 && 0 <= m < 12 && d >= 1
    ensures Weekday(Date(y, m, d)) == Rfc3339DayOfWeek(y, m + 1, d)
  {
    var sy := if m < 2 then y - 1 else y;
    var c, yy := sy / 100, sy % 100;
    CenturySplit(sy);
    var k := MonthTermsAgree(m);
    var x := MarchBase(sy) + MarchOffset(m) + d - 1 - 719468 + 4;
    assert x == DayNumber(y, m, d) + 4;
    var r := Rfc3339MonthTerm(m) + d + yy + yy / 4 + c / 4 + 5 * c;
    assert Rfc3339DayOfWeek(y, m + 1, d) == r % 7;
    assert x - r == 7 * (5217 * c + 52 * yy - 102780 + k);
    ModOfDifference(x, r, 5217 * c + 52 * yy - 102780 + k);
  }

  /** Floor division by `k` goes up by one exactly at the multiples of `k`. */
  lemma DivStep(n: int, k: int)
    requires k in {4, 100, 400}
    ensures (n + 1) / k - n / k == if (n + 1) % k == 0 then 1 else 0
  {
    var q, t := n / k, n % k;
    assert n == k * q + t && 0 <= t < k;
    if t == k - 1 {
      assert n + 1 == k * (q + 1);
    } else {
      assert n + 1 == k * q + (t + 1);
    }
  }

  /** The year counted from March that ends in February of `y + 1` has 366 days exactly when `y + 1` is a leap year. */
  lemma YearLength(y: int)
    ensures MarchBase(y + 1) - MarchBase(y) == if IsLeapYear(y + 1) then 366 else 365
  {
    DivStep(y, 4);
    DivStep(y, 100);
    DivStep(y, 400);
    var n := y + 1;
    if n % 400 == 0 {
      assert n == 400 * (n / 400);
      assert n == 100 * (4 * (n / 400));
      assert n == 4 * (100 * (n / 400));
    } else if n % 100 == 0 {
      assert n == 100 * (n / 100);
      assert n == 4 * (25 * (n / 100));
    }
  }

  /** Day `d` of a month lies `d - 1` days after its 1st. */
  lemma DayNumberInMonth(y: int, m: int, d: int)
    requires 0 <= m < 12
    ensures DayNumber(y, m, d) == DayNumber(y, m, 1) + d - 1
  {
  }

  // ---------- Months as JavaScript's Date constructor normalises them --------

  /** `new Date(y, m, 1)`: month overflow and underflow carry into the year. */
  function MonthStart(y: int, m: int): (r: Date)
    ensures 0 <= r.month < 12 && r.day == 1
    ensures 12 * r.year + r.month == 12 * y + m
  {
    Date(y + m / 12, m % 12, 1)
  }

  /** Splitting a month count into whole years and a month is unique. */
  lemma MonthStartOf(y: int, m: int, y': int, m': int)
    requires 0 <= m' < 12 && 12 * y' + m' == 12 * y + m
    ensures MonthStart(y, m) == Date(y', m', 1)
  {
    var q, r := m / 12, m % 12;
    assert m == 12 * q + r;
    assert 12 * (y' - y - q) == r - m';
  }

  /** The 1st of the month after the month of `d`. */
  function NextMonthStart(d: Date): Date {
    MonthStart(d.year, d.month + 1)
  }

  /** The 1st of the month before the month of `d`. */
  function PrevMonthStart(d: Date): Date {
    MonthStart(d.year, d.month - 1)
  }

  /** Going forward one month wraps December into January of the next year. */
  lemma NextMonthWraps(d: Date)
    requires 0 <= d.month < 12
    ensures NextMonthStart(d) == if d.month == 11 then Date(d.year + 1, 0, 1)
                                 else Date(d.year, d.month + 1, 1)
  {
    if d.month == 11 {
      MonthStartOf(d.year, 12, d.year + 1, 0);
    } else {
      MonthStartOf(d.year, d.month + 1, d.year, d.month + 1);
    }
  }

  /** Going back one month wraps January into December of the previous year. */
  lemma PrevMonthWraps(d: Date)
    requires 0 <= d.month < 12
    ensures PrevMonthStart(d) == if d.month == 0 then Date(d.year - 1, 11, 1)
                                 else Date(d.year, d.month - 1, 1)
  {
    if d.month == 0 {
      MonthStartOf(d.year, -1, d.year - 1, 11);
    } else {
      MonthStartOf(d.year, d.month - 1, d.year, d.month - 1);
    }
  }

  /** Month offsets from March grow by the length of the month, February aside. */
  lemma MarchOffsetStep(m: int)
    requires 0 <= m < 11 && m != 1
    ensures MarchOffset(m + 1) == MarchOffset(m) + (if HasThirtyDays(m) then 30 else 31)
  {
    if m < 6 {
      EarlyMarchOffsets(m);
    } else {
      LateMarchOffsets(m);
    }
  }

  /** The offsets of January and of March to July, counted from the 1st of March. */
  lemma EarlyMarchOffsets(m: int)
    requires m in {0, 2, 3, 4, 5}
    ensures MarchOffset(m) == [306, 0, 0, 31, 61, 92][m]
    ensures MarchOffset(m + 1) == [337, 0, 31, 61, 92, 122][m]
  {
  }

  /** The offsets of July to December, counted from the 1st of March. */
  lemma LateMarchOffsets(m: int)
    requires 6 <= m < 11
    ensures MarchOffset(m) == [122, 153, 184, 214, 245][m - 6]
    ensures MarchOffset(m + 1) == [153, 184, 214, 245, 275][m - 6]
  {
  }

  /** February ends where March begins: 28 or 29 days, by the length of the year counted from March. */
  lemma FebruaryDistance(y: int)
    ensures DayNumber(y, 2, 1) == DayNumber(y, 1, 1) + DaysInMonth(y, 1)
  {
    YearLength(y - 1);
    assert MarchOffset(1) == 337 && MarchOffset(2) == 0;
  }

  /** December ends where January of the next year begins. */
  lemma DecemberDistance(y: int)
    ensures DayNumber(y + 1, 0, 1) == DayNumber(y, 11, 1) + 31
  {
    assert MarchOffset(11) == 275 && MarchOffset(0) == 306;
  }

  /** Any other month ends where the next month of the same year begins. */
  lemma WithinYearDistance(y: int, m: int)
    requires 0 <= m < 11 && m != 1
    ensures DayNumber(y, m + 1, 1) == DayNumber(y, m, 1) + DaysInMonth(y, m)
  {
    MarchOffsetStep(m);
  }

  /**
    The number of days in a month is the distance from its 1st to the 1st of the next
    month: the last day of month `m` is day 0 of month `m + 1`.
   */
  lemma DaysInMonthIsDistance(y: int, m: int)
    requires 0 <= m < 12
    ensures var n := MonthStart(y, m + 1);
            DayNumber(n.year, n.month, 1) == DayNumber(y, m, 1) + DaysInMonth(y, m)
  {
    NextMonthWraps(Date(y, m, 1));
    if m == 1 {
      FebruaryDistance(y);
    } else if m == 11 {
      DecemberDistance(y);
    } else {
      WithinYearDistance(y, m);
    }
  }

  /** Day `DaysInMonth + 1` of a month is the 1st of the next month. */
  lemma LastDayThenNextMonth(y: int, m: int)
    requires 0 <= m < 12
    ensures var n := MonthStart(y, m + 1);
            DayNumber(y, m, DaysInMonth(y, m) + 1) == DayNumber(n.year, n.month, 1)
  {
    DaysInMonthIsDistance(y, m);
  }

  lemma ModShift7(x: int, k: int)
    ensures ((x % 7) + k) % 7 == (x + k) % 7
  {
    var q := x / 7;
    assert x == 7 * q + x % 7;
    assert (x % 7) + k == (x + k) - 7 * q;
  }

  /** The 1st of the next month falls `DaysInMonth` weekdays after the 1st of this one. */
  lemma NextFirstWeekday(y: int, m: int)
    requires 0 <= m < 12
    ensures Weekday(MonthStart(y, m + 1)) == (Weekday(Date(y, m, 1)) + DaysInMonth(y, m)) % 7
  {
    DaysInMonthIsDistance(y, m);
    ModShift7(DayNumber(y, m, 1) + 4, DaysInMonth(y, m));
  }

  /** Moving `n` months forward from the month of `d`, one month at a time. */
  function MonthsAhead(d: Date, n: nat): Date
    decreases n
  {
    if n == 0 then MonthStart(d.year, d.month) else NextMonthStart(MonthsAhead(d, n - 1))
  }

  lemma {:induction false} MonthsAheadIsShift(d: Date, n: nat)
    ensures MonthsAhead(d, n) == MonthStart(d.year, d.month + n)
  {
    if n > 0 {
      MonthsAheadIsShift(d, n - 1);
      var p := MonthStart(d.year, d.month + n - 1);
      MonthStartOf(p.year, p.month + 1, (MonthStart(d.year, d.month + n)).year, (MonthStart(d.year, d.month + n)).month);
    }
  }

  /** Twelve steps forward, `k` times over, land on the same month `k` years later. */
  lemma YearsAhead(d: Date, k: nat)
    requires 0 <= d.month < 12
    ensures MonthsAhead(d, 12 * k) == Date(d.year + k, d.month, 1)
  {
    MonthsAheadIsShift(d, 12 * k);
    MonthStartOf(d.year, d.month + 12 * k, d.year + k, d.month);
  }

  /** One month back then one month forward returns to the same month, on its 1st. */
  lemma PrevThenNext(d: Date)
    requires 0 <= d.month < 12
    ensures NextMonthStart(PrevMonthStart(d)) == Date(d.year, d.month, 1)
    ensures PrevMonthStart(NextMonthStart(d)) == Date(d.year, d.month, 1)
  {
    PrevMonthWraps(d);
    NextMonthWraps(d);
    NextMonthWraps(PrevMonthStart(d));
    PrevMonthWraps(NextMonthStart(d));
  }

  // ---------- Instants ------------------------------------------------------

  const MsPerDay: int := 86400000

  /** The instant of local midnight at the start of `d`. */
  function Midnight(d: Date): int
    requires 0 <= d.month < 12
  {
    DayOf(d) * MsPerDay
  }

  /** Midnights are ordered as the days are. */
  lemma MidnightMonotone(a: Date, b: Date)
    requires 0 <= a.month < 12 && 0 <= b.month < 12
    ensures Midnight(a) < Midnight(b) <==> DayOf(a) < DayOf(b)
  {
  }

  // ---------- The full-date form yyyy-MM-dd ---------------------------------

  /** The year as a `yyyy` field prints it: the era year, so 0 prints as 1 (1 BC). */
  function EraYear(y: int): (e: nat)
    ensures y >= 1 ==> e == y
  {
    if y > 0 then y else 1 - y
  }

  /** `format(date, "yyyy-MM-dd")`: year padded to four digits, month and day to two. */
  function FormatFullDate(d: Date): (s: string)
    requires ValidDate(d)
  {
    Text.PadDecimal(EraYear(d.year), 4) + "-" + Text.PadDecimal(d.month + 1, 2) + "-" +
    Text.PadDecimal(d.day, 2)
  }

  /**
    `new Date("yyyy-MM-dd")` read as a calendar date: four year digits, a hyphen, two
    month digits, a hyphen, two day digits, naming a day that exists; anything else is
    an invalid date (`None`).
   */
  function ParseFullDate(s: string): (r: Option<Date>)
    ensures r.Some? ==> ValidDate(r.value) && 0 <= r.value.year <= 9999
  {
    if |s| == 10 && s[4] == '-' && s[7] == '-' &&
       Text.AllDigits(s[..4]) && Text.AllDigits(s[5..7]) && Text.AllDigits(s[8..])
    then ReadFields(s[..4], s[5..7], s[8..])
    else None
  }

  /** The date named by year, month (1-based) and day digit fields, if that day exists. */
  function ReadFields(ys: string, ms: string, ds: string): (r: Option<Date>)
    requires |ys| == 4 && Text.AllDigits(ys) && Text.AllDigits(ms) && Text.AllDigits(ds)
    ensures r.Some? ==> ValidDate(r.value) && 0 <= r.value.year <= 9999
  {
    var y, m, d := Text.DigitsValue(ys), Text.DigitsValue(ms), Text.DigitsValue(ds);
    assert y < 10000 by { DigitsBound(ys); }
    if 1 <= m <= 12 && 1 <= d <= DaysInMonth(y, m - 1) then Some(Date(y, m - 1, d)) else None
  }

  lemma {:induction false} DigitsBound(s: string)
    requires Text.AllDigits(s)
    ensures Text.DigitsValue(s) < Text.Pow10(|s|)
    decreases |s|
  {
    if s != [] {
      DigitsBound(s[..|s| - 1]);
    }
  }

  /** The parser reads a text made of three digit fields joined by hyphens field by field. */
  lemma ParseOfFields(ys: string, ms: string, ds: string)
    requires |ys| == 4 && |ms| == 2 && |ds| == 2
    requires Text.AllDigits(ys) && Text.AllDigits(ms) && Text.AllDigits(ds)
    ensures ParseFullDate(ys + "-" + ms + "-" + ds) == ReadFields(ys, ms, ds)
  {
    var s := ys + "-" + ms + "-" + ds;
    assert |s| == 10 && s[4] == '-' && s[7] == '-' && s[..4] == ys && s[5..7] == ms && s[8..] == ds;
  }

  /** 2 June 2025 is written "2025-06-02". */
  lemma FormatExample()
    ensures FormatFullDate(Date(2025, 5, 2)) == "2025-06-02"
  {
    assert Text.PadDecimal(2, 1) == "2";
    assert Text.PadDecimal(20, 2) == "20";
    assert Text.PadDecimal(202, 3) == "202";
    assert Text.PadDecimal(2025, 4) == "2025";
    assert Text.PadDecimal(6, 2) == "06";
    assert Text.PadDecimal(2, 2) == "02";
  }

  /** A date in years 1 to 9999, written out and read back, is the same date. */
  lemma FormatThenParse(d: Date)
    requires ValidDate(d) && 1 <= d.year <= 9999
    ensures ParseFullDate(FormatFullDate(d)) == Some(d)
  {
    var ys, ms, ds := Text.PadDecimal(d.year, 4), Text.PadDecimal(d.month + 1, 2), Text.PadDecimal(d.day, 2);
    Text.PadDecimalLength(d.year, 4);
    Text.PadDecimalLength(d.month + 1, 2);
    Text.PadDecimalLength(d.day, 2);
    Text.PadDecimalValue(d.year, 4);
    Text.PadDecimalValue(d.month + 1, 2);
    Text.PadDecimalValue(d.day, 2);
    ParseOfFields(ys, ms, ds);
    assert FormatFullDate(d) == ys + "-" + ms + "-" + ds;
  }

  /** A string that reads as a date of year 1 or later is exactly how that date is written. */
  lemma ParseThenFormat(s: string)
    requires ParseFullDate(s).Some? && ParseFullDate(s).value.year >= 1
    ensures FormatFullDate(ParseFullDate(s).value) == s
  {
    var d := ParseFullDate(s).value;
    Text.DigitsRoundTrip(s[..4]);
    Text.DigitsRoundTrip(s[5..7]);
    Text.DigitsRoundTrip(s[8..]);
    assert s == s[..4] + "-" + s[5..7] + "-" + s[8..];
  }

  /** Year 0 reads back from "0000-…" but is written as "0001-…", the era year. */
  lemma YearZeroDoesNotRoundTrip()
    ensures ParseFullDate("0000-01-01") == Some(Date(0, 0, 1))
    ensures FormatFullDate(Date(0, 0, 1)) == "0001-01-01"
  {
    YearZeroReads();
  }

  lemma YearZeroReads()
    ensures ParseFullDate("0000-01-01") == Some(Date(0, 0, 1))
  {
    ParseOfFields("0000", "01", "01");
    assert "0000" + "-" + "01" + "-" + "01" == "0000-01-01";
    assert Text.DigitsValue("0000") == 0 by {
      assert "0000"[..3] == "000" && "000"[..2] == "00" && "00"[..1] == "0" && "0"[..0] == "";
    }
    assert Text.DigitsValue("01") == 1 by {
      assert "01"[..1] == "0" && "0"[..0] == "";
    }
  }
}
