/** Calendar dates as Python's `datetime.date` has them: the proleptic
    Gregorian calendar, years 1 to 9999. `Ordinal` is the day number with
    0001-01-01 as day 1 (`date.toordinal()`), the reference against which
    comparisons and day arithmetic are proved. */
module Dates {
  import Text

  datatype Date = Date(year: int, month: int, day: int)

  predicate IsLeap(y: int)
  {
    y % 4 == 0 && (y % 100 != 0 || y % 400 == 0)
  }

  function DaysInYear(y: int): int
  {
    if IsLeap(y) then 366 else 365
  }

  function DaysInMonth(y: int, m: int): int
    requires 1 <= m <= 12
  {
    if m == 2 then (if IsLeap(y) then 29 else 28)
    else if m == 4 || m == 6 || m == 9 || m == 11 then 30
    else 31
  }

  predicate Valid(d: Date)
  {
    1 <= d.year <= 9999 && 1 <= d.month <= 12 && 1 <= d.day <= DaysInMonth(d.year, d.month)
  }

  /** `a < b` on dates: by year, then month, then day. */
  predicate Before(a: Date, b: Date)
  {
    a.year < b.year
    || (a.year == b.year && a.month < b.month)
    || (a.year == b.year && a.month == b.month && a.day < b.day)
  }

  predicate AtMost(a: Date, b: Date)
  {
    a == b || Before(a, b)
  }

  // ---------------------------------------------------------------------
  // Ordinal day numbers
  // ---------------------------------------------------------------------

  /** Days in the years before `y`, counting from year 1. */
  function DaysBeforeYear(y: int): (n: nat)
  {
    if y <= 1 then 0 else DaysBeforeYear(y - 1) + DaysInYear(y - 1)
  }

  /** Days in the months of year `y` before month `m`. */
  function DaysBeforeMonth(y: int, m: int): (n: nat)
    requires 1 <= m <= 12
  {
    var table := [0, 0, 31, 59, 90, 120, 151, 181, 212, 243, 273, 304, 334];
    table[m] + (if m > 2 && IsLeap(y) then 1 else 0)
  }

  function Ordinal(d: Date): int
    requires Valid(d)
  {
    DaysBeforeYear(d.year) + DaysBeforeMonth(d.year, d.month) + d.day
  }

  lemma DaysBeforeNextMonth(y: int, m: int)
    requires 1 <= m < 12
    ensures DaysBeforeMonth(y, m + 1) == DaysBeforeMonth(y, m) + DaysInMonth(y, m)
  {
  }

  lemma DaysBeforeMonthMonotone(y: int, m1: int, m2: int)
    requires 1 <= m1 < m2 <= 12
    ensures DaysBeforeMonth(y, m1) + DaysInMonth(y, m1) <= DaysBeforeMonth(y, m2)
  {
  }

  lemma DayOfYearBounds(d: Date)
    requires Valid(d)
    ensures 1 <= DaysBeforeMonth(d.year, d.month) + d.day <= DaysInYear(d.year)
  {
  }

  lemma {:induction false} DaysBeforeYearMonotone(y1: int, y2: int)
    requires 1 <= y1 < y2
    ensures DaysBeforeYear(y1) + DaysInYear(y1) <= DaysBeforeYear(y2)
  {
    if y1 + 1 < y2 {
      DaysBeforeYearMonotone(y1, y2 - 1);
    }
  }

  lemma BeforeImpliesSmallerOrdinal(a: Date, b: Date)
    requires Valid(a) && Valid(b) && Before(a, b)
    ensures Ordinal(a) < Ordinal(b)
  {
    if a.year < b.year {
      DayOfYearBounds(a);
      DayOfYearBounds(b);
      DaysBeforeYearMonotone(a.year, b.year);
    } else if a.month < b.month {
      DaysBeforeMonthMonotone(a.year, a.month, b.month);
    }
  }

  /** Date order is ordinal order: comparing dates field by field agrees
      with comparing their day numbers. */
  lemma OrdinalOrder(a: Date, b: Date)
    requires Valid(a) && Valid(b)
    ensures Before(a, b) <==> Ordinal(a) < Ordinal(b)
    ensures a == b <==> Ordinal(a) == Ordinal(b)
  {
    if Before(a, b) {
      BeforeImpliesSmallerOrdinal(a, b);
    } else if Before(b, a) {
      BeforeImpliesSmallerOrdinal(b, a);
    }
  }

  // ---------------------------------------------------------------------
  // Day arithmetic
  // ---------------------------------------------------------------------

  /** The day before `d` (`d - timedelta(days=1)`). */
  function PrevDay(d: Date): Date
    requires 1 <= d.month <= 12
  {
    if d.day > 1 then Date(d.year, d.month, d.day - 1)
    else if d.month > 1 then Date(d.year, d.month - 1, DaysInMonth(d.year, d.month - 1))
    else Date(d.year - 1, 12, 31)
  }

  /** `d - timedelta(days=n)`. */
  function MinusDays(d: Date, n: nat): Date
    requires Valid(d) && Ordinal(d) > n
    decreases n
  {
    if n == 0 then d
    else
      PrevDayOrdinal(d);
      MinusDays(PrevDay(d), n - 1)
  }

  lemma PrevDayOrdinal(d: Date)
    requires Valid(d) && Ordinal(d) > 1
    ensures Valid(PrevDay(d))
    ensures Ordinal(PrevDay(d)) == Ordinal(d) - 1
  {
    if d.day == 1 && d.month > 1 {
      DaysBeforeNextMonth(d.year, d.month - 1);
    } else if d.day == 1 {
      assert d.year > 1;
      assert DaysBeforeYear(d.year) == DaysBeforeYear(d.year - 1) + DaysInYear(d.year - 1);
    }
  }

  /** Subtracting `n` days moves the ordinal back by exactly `n` and stays a
      valid date: `MinusDays` is Python's `date - timedelta(days=n)`. */
  lemma {:induction false} MinusDaysOrdinal(d: Date, n: nat)
    requires Valid(d) && Ordinal(d) > n
    ensures Valid(MinusDays(d, n))
    ensures Ordinal(MinusDays(d, n)) == Ordinal(d) - n
    decreases n
  {
    if n > 0 {
      PrevDayOrdinal(d);
      MinusDaysOrdinal(PrevDay(d), n - 1);
    }
  }

  // ---------------------------------------------------------------------
  // strftime('%Y%m%d')
  // ---------------------------------------------------------------------

  /** `d.strftime('%Y%m%d')`: four-digit year, two-digit month and day. */
  function FormatYmd(d: Date): (s: string)
    requires Valid(d)
    ensures |s| == 8 && Text.AllDigits(s)
  {
    Text.Padded(d.year, 4) + Text.Padded(d.month, 2) + Text.Padded(d.day, 2)
  }

  /** Reads an eight-digit `%Y%m%d` string back into a date. */
  function ParseYmd(s: string): Date
    requires |s| == 8 && Text.AllDigits(s)
  {
    Date(Text.ParseDigits(s[..4]), Text.ParseDigits(s[4..6]), Text.ParseDigits(s[6..]))
  }

  /** Formatting loses nothing: the rendering parses back to the date. */
  lemma FormatYmdRoundTrip(d: Date)
    requires Valid(d)
    ensures ParseYmd(FormatYmd(d)) == d
  {
    var s := FormatYmd(d);
    assert s[..4] == Text.Padded(d.year, 4);
    assert s[4..6] == Text.Padded(d.month, 2);
    assert s[6..] == Text.Padded(d.day, 2);
    assert Text.Pow10(4) == 10000 && Text.Pow10(2) == 100;
    Text.ParsePadded(d.year, 4);
    Text.ParsePadded(d.month, 2);
    Text.ParsePadded(d.day, 2);
  }

  /** Two different valid dates never share a rendering. */
  lemma FormatYmdInjective(a: Date, b: Date)
    requires Valid(a) && Valid(b) && a != b
    ensures FormatYmd(a) != FormatYmd(b)
  {
    FormatYmdRoundTrip(a);
    FormatYmdRoundTrip(b);
  }
}
