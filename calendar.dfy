/** The parts of Python's datetime the alert policy reads: the calendar date,
    the hour and date.weekday() (Monday is 0) in the proleptic Gregorian calendar. */
module Calendar {

  datatype Date = Date(year: int, month: int, day: int)

  datatype DateTime = DateTime(year: int, month: int, day: int, hour: int, minute: int, second: int)

  predicate IsLeap(y: int) {
    y % 4 == 0 && (y % 100 != 0 || y % 400 == 0)
  }

  function DaysInMonth(y: int, m: int): int
    requires 1 <= m <= 12
  {
    if m == 2 then (if IsLeap(y) then 29 else 28)
    else if m == 4 || m == 6 || m == 9 || m == 11 then 30
    else 31
  }

  /** The range datetime itself enforces on its fields. */
  predicate ValidDate(d: Date) {
    1 <= d.year <= 9999 && 1 <= d.month <= 12 && 1 <= d.day <= DaysInMonth(d.year, d.month)
  }

  predicate ValidDateTime(t: DateTime) {
    && ValidDate(DateOf(t))
    && 0 <= t.hour < 24 && 0 <= t.minute < 60 && 0 <= t.second < 60
  }

  function DateOf(t: DateTime): Date {
    Date(t.year, t.month, t.day)
  }

  /** Days in the months of year y before month m (the table Python's datetime uses). */
  function DaysBeforeMonth(y: int, m: int): int
    requires 1 <= m <= 12
  {
    [0, 31, 59, 90, 120, 151, 181, 212, 243, 273, 304, 334][m - 1]
      + (if m > 2 && IsLeap(y) then 1 else 0)
  }

  /** The table agrees with the month lengths. */
  lemma DaysBeforeNextMonth(y: int, m: int)
    requires 1 <= m < 12
    ensures DaysBeforeMonth(y, m + 1) == DaysBeforeMonth(y, m) + DaysInMonth(y, m)
  {
  }

  /** date.toordinal(): 1 for 0001-01-01. */
  function Ordinal(d: Date): int
    requires ValidDate(d)
  {
    var y := d.year - 1;
    y * 365 + y / 4 - y / 100 + y / 400 + DaysBeforeMonth(d.year, d.month) + d.day
  }

  /** date.weekday(): Monday 0 ... Sunday 6. */
  function Weekday(d: Date): (w: int)
    requires ValidDate(d)
    ensures 0 <= w < 7
  {
    (Ordinal(d) + 6) % 7
  }

  /** Reference dates: 0001-01-01 was a Monday, 2025-10-11 a Saturday, 2025-10-12 a Sunday. */
  lemma WeekdayExamples()
    ensures Weekday(Date(1, 1, 1)) == 0
    ensures Weekday(Date(2025, 10, 10)) == 4
    ensures Weekday(Date(2025, 10, 11)) == 5
    ensures Weekday(Date(2025, 10, 12)) == 6
    ensures Weekday(Date(2025, 10, 13)) == 0
  {
  }
}
