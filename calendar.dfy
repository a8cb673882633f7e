// Proleptic Gregorian calendar dates, as Python's datetime.date and the
// date part of a pandas Timestamp represent them.
module Calendar {

  datatype Date = Date(year: int, month: int, day: int)

  predicate IsLeapYear(y: int)
  {
    y % 4 == 0 && (y % 100 != 0 || y % 400 == 0)
  }

  function DaysInMonth(y: int, m: int): (n: int)
    requires 1 <= m <= 12
    ensures 28 <= n <= 31
    ensures n == 29 <==> (m == 2 && IsLeapYear(y))
  {
    if m == 2 then (if IsLeapYear(y) then 29 else 28)
    else if m == 4 || m == 6 || m == 9 || m == 11 then 30
    else 31
  }

  /** Month 1..12 and a day that exists in that month of that year. */
  predicate ValidDate(d: Date)
  {
    1 <= d.month <= 12 && 1 <= d.day <= DaysInMonth(d.year, d.month)
  }

  /** Chronological order of dates (year, then month, then day). */
  predicate NotAfter(a: Date, b: Date)
  {
    a.year < b.year || (a.year == b.year && (a.month < b.month || (a.month == b.month && a.day <= b.day)))
  }

  /**
   * Dates whose midnight a pandas Timestamp can hold. Timestamp.min is
   * 1677-09-21 00:12:43.145224193, so midnight of that day is already out of
   * range; Timestamp.max is 2262-04-11 23:47:16.854775807.
   */
  predicate InTimestampRange(d: Date)
  {
    NotAfter(Date(1677, 9, 22), d) && NotAfter(d, Date(2262, 4, 11))
  }

  predicate YearWithin(d: Date, lo: int, hi: int)
  {
    lo <= d.year <= hi
  }

  /** Timestamp.replace(year = year - 100): month and day are kept. */
  function MinusCentury(d: Date): Date
  {
    d.(year := d.year - 100)
  }

  /**
   * For the years a two-digit year can produce above 2020 (2021..2068) the
   * replacement never yields an invalid date: no century year lies in either
   * range, so leap years map to leap years.
   */
  lemma MinusCenturyValid(d: Date)
    requires ValidDate(d) && YearWithin(d, 2021, 2068)
    ensures ValidDate(MinusCentury(d)) && InTimestampRange(MinusCentury(d))
    ensures YearWithin(MinusCentury(d), 1921, 1968)
  {
    var y := d.year;
    assert IsLeapYear(y) == IsLeapYear(y - 100) by {
      assert y % 100 != 0 && (y - 100) % 100 != 0;
      assert (y - 100) % 4 == y % 4;
    }
  }

  /** The converse: a valid date of 1921..1968 moved a century later is a valid date of 2021..2068 that the shift maps back. */
  lemma PlusCenturyValid(d: Date)
    requires ValidDate(d) && YearWithin(d, 1921, 1968)
    ensures var e := d.(year := d.year + 100);
      ValidDate(e) && InTimestampRange(e) && YearWithin(e, 2021, 2068) && MinusCentury(e) == d
  {
    var y := d.year;
    assert IsLeapYear(y) == IsLeapYear(y + 100) by {
      assert y % 100 != 0 && (y + 100) % 100 != 0;
      assert (y + 100) % 4 == y % 4;
    }
  }

  /** The leap year 2024 becomes the leap year 1924: 29 February survives the shift. */
  lemma LeapDayShift()
    ensures ValidDate(MinusCentury(Date(2024, 2, 29))) && MinusCentury(Date(2024, 2, 29)) == Date(1924, 2, 29)
  {
    MinusCenturyValid(Date(2024, 2, 29));
  }

  /** Days in the years before year y, counted from year 1 (datetime's `_days_before_year`). */
  function DaysBeforeYear(y: int): int
  {
    var p := y - 1;
    p * 365 + p / 4 - p / 100 + p / 400
  }

  /** Days in the months of year y before month m (datetime's `_days_before_month`). */
  function DaysBeforeMonth(y: int, m: int): (n: int)
    requires 1 <= m <= 12
    ensures m == 1 ==> n == 0
    ensures 1 < m ==> n == DaysBeforeMonth(y, m - 1) + DaysInMonth(y, m - 1)
  {
    [0, 31, 59, 90, 120, 151, 181, 212, 243, 273, 304, 334][m - 1] + (if m > 2 && IsLeapYear(y) then 1 else 0)
  }

  /** date.toordinal: 0001-01-01 is day 1. */
  function Ordinal(d: Date): int
    requires 1 <= d.month <= 12
  {
    DaysBeforeYear(d.year) + DaysBeforeMonth(d.year, d.month) + d.day
  }

  /** A year has 366 days when it is a leap year and 365 otherwise. */
  lemma YearLength(y: int)
    ensures DaysBeforeYear(y + 1) == DaysBeforeYear(y) + (if IsLeapYear(y) then 366 else 365)
  {
    Quarter(y - 1);
    Century(y - 1);
    Quadricentury(y - 1);
  }

  lemma Quarter(p: int)
    ensures (p + 1) / 4 == p / 4 + (if (p + 1) % 4 == 0 then 1 else 0)
  {
  }

  lemma Century(p: int)
    ensures (p + 1) / 100 == p / 100 + (if (p + 1) % 100 == 0 then 1 else 0)
  {
  }

  lemma Quadricentury(p: int)
    ensures (p + 1) / 400 == p / 400 + (if (p + 1) % 400 == 0 then 1 else 0)
  {
  }

  /** Every day of a valid date lies within its year. */
  lemma OrdinalInYear(d: Date)
    requires ValidDate(d)
    ensures DaysBeforeYear(d.year) < Ordinal(d) <= DaysBeforeYear(d.year + 1)
  {
    YearLength(d.year);
  }

  /** A later year starts after an earlier one has ended. */
  lemma {:induction false} YearsInOrder(a: int, b: int)
    requires a < b
    ensures DaysBeforeYear(a + 1) <= DaysBeforeYear(b)
    decreases b - a
  {
    if a + 1 < b {
      YearsInOrder(a, b - 1);
      YearLength(b - 1);
    }
  }

  /** Months before m end before month m begins: an earlier month of the same year ends no later than a later one starts. */
  lemma MonthsInOrder(y: int, m1: int, m2: int)
    requires 1 <= m1 < m2 <= 12
    ensures DaysBeforeMonth(y, m1) + DaysInMonth(y, m1) <= DaysBeforeMonth(y, m2)
  {
  }

  /** Ordinals count days: a date strictly before another has the smaller ordinal. */
  lemma OrdinalBefore(a: Date, b: Date)
    requires ValidDate(a) && ValidDate(b) && NotAfter(a, b) && a != b
    ensures Ordinal(a) < Ordinal(b)
  {
    if a.year < b.year {
      OrdinalInYear(a);
      OrdinalInYear(b);
      YearsInOrder(a.year, b.year);
    } else if a.month < b.month {
      MonthsInOrder(a.year, a.month, b.month);
    }
  }

  /** Chronological order of valid dates is the order of their ordinals. */
  lemma OrdinalOrder(a: Date, b: Date)
    requires ValidDate(a) && ValidDate(b)
    ensures NotAfter(a, b) <==> Ordinal(a) <= Ordinal(b)
  {
    if NotAfter(a, b) && a != b {
      OrdinalBefore(a, b);
    } else if !NotAfter(a, b) {
      OrdinalBefore(b, a);
    }
  }
}
