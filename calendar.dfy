/**
 * Proleptic Gregorian dates as `datetime` handles them: which (year, month,
 * day) triples exist, and instants counted in microseconds from
 * `datetime.min` (0001-01-01T00:00:00 UTC), so that `datetime.min` is 0.
 */
module Calendar {

  const MicrosPerDay: nat := 86_400_000_000

  predicate IsLeap(y: int) {
    y % 4 == 0 && (y % 100 != 0 || y % 400 == 0)
  }

  function DaysInMonth(y: int, m: int): nat
    requires 1 <= m <= 12
  {
    if m == 2 then (if IsLeap(y) then 29 else 28)
    else if m == 4 || m == 6 || m == 9 || m == 11 then 30
    else 31
  }

  /** A date `datetime` can represent: year 1 to 9999, a real month, a day that month has. */
  predicate ValidDate(y: int, m: int, d: int) {
    1 <= y <= 9999 && 1 <= m <= 12 && 1 <= d <= DaysInMonth(y, m)
  }

  function DaysBeforeYear(y: int): nat
    requires y >= 1
  {
    var p := y - 1;
    365 * p + p / 4 - p / 100 + p / 400
  }

  function DaysBeforeMonth(y: int, m: int): nat
    requires 1 <= m <= 12
  {
    [0, 31, 59, 90, 120, 151, 181, 212, 243, 273, 304, 334][m - 1] + (if m > 2 && IsLeap(y) then 1 else 0)
  }

  /** Days from 0001-01-01 to the date (Python's `date.toordinal() - 1`). */
  function DayNumber(y: int, m: int, d: int): nat
    requires ValidDate(y, m, d)
  {
    DaysBeforeYear(y) + DaysBeforeMonth(y, m) + d - 1
  }

  /** Midnight UTC of the date, in microseconds since `datetime.min`. */
  function Midnight(y: int, m: int, d: int): nat
    requires ValidDate(y, m, d)
  {
    DayNumber(y, m, d) * MicrosPerDay
  }

  /** Lexicographic order of (year, month, day). */
  predicate DateBefore(y1: int, m1: int, d1: int, y2: int, m2: int, d2: int) {
    y1 < y2 || (y1 == y2 && (m1 < m2 || (m1 == m2 && d1 < d2)))
  }

  /** The first day of a month follows the last day of the month before. */
  lemma NextMonth(y: int, m: int)
    requires 1 <= y <= 9999 && 1 <= m < 12
    ensures DayNumber(y, m + 1, 1) == DayNumber(y, m, DaysInMonth(y, m)) + 1
  {
  }

  /** A year has 366 days when it is a leap year and 365 otherwise. */
  lemma YearLength(y: int)
    requires y >= 1
    ensures DaysBeforeYear(y + 1) == DaysBeforeYear(y) + (if IsLeap(y) then 366 else 365)
  {
    var p := y - 1;
    Step4(p);
    Step100(p);
    Step400(p);
    if y % 400 == 0 {
      assert y % 100 == 0 && y % 4 == 0 by {
        assert y == 400 * (y / 400);
      }
    } else if y % 100 == 0 {
      assert y % 4 == 0 by {
        assert y == 100 * (y / 100);
      }
    }
  }

  lemma Step4(p: nat)
    ensures (p + 1) / 4 == p / 4 + (if (p + 1) % 4 == 0 then 1 else 0)
  {
  }

  lemma Step100(p: nat)
    ensures (p + 1) / 100 == p / 100 + (if (p + 1) % 100 == 0 then 1 else 0)
  {
  }

  lemma Step400(p: nat)
    ensures (p + 1) / 400 == p / 400 + (if (p + 1) % 400 == 0 then 1 else 0)
  {
  }

  /** New Year's Day follows the last day of December. */
  lemma NextYear(y: int)
    requires 1 <= y < 9999
    ensures DayNumber(y + 1, 1, 1) == DayNumber(y, 12, 31) + 1
  {
    YearLength(y);
  }

  lemma DaysBeforeYearMonotone(y1: int, y2: int)
    requires 1 <= y1 <= y2
    ensures DaysBeforeYear(y1) + (y2 - y1) * 365 <= DaysBeforeYear(y2)
    decreases y2 - y1
  {
    if y1 < y2 {
      YearLength(y1);
      DaysBeforeYearMonotone(y1 + 1, y2);
    }
  }

  /** Every date of a year comes before the first day of the next year. */
  lemma WithinYear(y: int, m: int, d: int)
    requires ValidDate(y, m, d)
    ensures DayNumber(y, m, d) < DaysBeforeYear(y + 1)
  {
    YearLength(y);
  }

  /** Day numbers follow the calendar: an earlier date has a smaller number. */
  lemma DayNumberMonotone(y1: int, m1: int, d1: int, y2: int, m2: int, d2: int)
    requires ValidDate(y1, m1, d1) && ValidDate(y2, m2, d2)
    requires DateBefore(y1, m1, d1, y2, m2, d2)
    ensures DayNumber(y1, m1, d1) < DayNumber(y2, m2, d2)
  {
    if y1 < y2 {
      WithinYear(y1, m1, d1);
      DaysBeforeYearMonotone(y1 + 1, y2);
    } else if m1 < m2 {
      assert DaysBeforeMonth(y1, m1) + DaysInMonth(y1, m1) <= DaysBeforeMonth(y1, m2);
    }
  }

  /** The Unix epoch is day 719162, as `date(1970, 1, 1).toordinal() - 1` says. */
  lemma UnixEpoch()
    ensures DayNumber(1970, 1, 1) == 719162
  {
  }
}
