/**
 * Epoch milliseconds of a UTC calendar time, the value
 * time.Date(year, month, day, hour, min, sec, nsec, time.UTC).UnixMilli()
 * yields in Go: proleptic Gregorian calendar, months outside 1..12 carried
 * into the year, every other field added linearly.
 */
module Civil {

  predicate IsLeap(y: int)
  {
    y % 4 == 0 && (y % 100 != 0 || y % 400 == 0)
  }

  function YearLength(y: int): nat
  {
    if IsLeap(y) then 366 else 365
  }

  function DaysInMonth(y: int, m: int): nat
    requires 1 <= m <= 12
  {
    if m == 2 then (if IsLeap(y) then 29 else 28)
    else if m == 4 || m == 6 || m == 9 || m == 11 then 30
    else 31
  }

  /** Days of year y that lie before the first of month m. */
  function DaysBeforeMonth(y: int, m: int): nat
    requires 1 <= m <= 12
  {
    [0, 31, 59, 90, 120, 151, 181, 212, 243, 273, 304, 334][m - 1]
      + (if m > 2 && IsLeap(y) then 1 else 0)
  }

  /** How many of the years 1..y are leap years (a count that goes negative below 1). */
  function LeapsThrough(y: int): int
  {
    y / 4 - y / 100 + y / 400
  }

  /** Days from 1970-01-01 to the first of January of year y. */
  function DaysBeforeYear(y: int): int
  {
    365 * (y - 1970) + LeapsThrough(y - 1) - LeapsThrough(1969)
  }

  /** Days from 1970-01-01 to y-m-d; days past the month's end run on into the next. */
  function DaysFromCivil(y: int, m: int, d: int): int
    requires 1 <= m <= 12
  {
    DaysBeforeYear(y) + DaysBeforeMonth(y, m) + d - 1
  }

  const MillisPerDay := 86_400_000

  /** time.Date(...).UnixMilli() for a UTC time. */
  function UnixMilli(year: int, month: int, day: int, hour: int, min: int, sec: int, nsec: int): int
  {
    var y := year + (month - 1) / 12;
    var m := (month - 1) % 12 + 1;
    DaysFromCivil(y, m, day) * MillisPerDay
      + hour * 3_600_000 + min * 60_000 + sec * 1000 + nsec / 1_000_000
  }

  /** The epoch itself is zero. */
  lemma Epoch()
    ensures UnixMilli(1970, 1, 1, 0, 0, 0, 0) == 0
  {
  }

  /** The year count advances by exactly the length of the year. */
  lemma YearStep(y: int)
    ensures DaysBeforeYear(y + 1) == DaysBeforeYear(y) + YearLength(y)
  {
    assert y / 4 - (y - 1) / 4 == if y % 4 == 0 then 1 else 0;
    assert y / 100 - (y - 1) / 100 == if y % 100 == 0 then 1 else 0;
    assert y / 400 - (y - 1) / 400 == if y % 400 == 0 then 1 else 0;
  }

  predicate ValidDate(y: int, m: int, d: int)
  {
    1 <= m <= 12 && 1 <= d <= DaysInMonth(y, m)
  }

  /** The calendar day after a valid date. */
  function NextDate(y: int, m: int, d: int): (r: (int, int, int))
    requires ValidDate(y, m, d)
    ensures ValidDate(r.0, r.1, r.2)
  {
    if d < DaysInMonth(y, m) then (y, m, d + 1)
    else if m < 12 then (y, m + 1, 1)
    else (y + 1, 1, 1)
  }

  /** Consecutive calendar days are consecutive day numbers, across month and year ends. */
  lemma NextDateIsNextDay(y: int, m: int, d: int)
    requires ValidDate(y, m, d)
    ensures var (y', m', d') := NextDate(y, m, d);
      DaysFromCivil(y', m', d') == DaysFromCivil(y, m, d) + 1
  {
    if d == DaysInMonth(y, m) && m == 12 {
      YearStep(y);
    }
  }

  /** Thirteen months after January of year y is February of the next year. */
  lemma MonthCarry(year: int, month: int, day: int, hour: int, min: int, sec: int, nsec: int)
    ensures UnixMilli(year, month + 12, day, hour, min, sec, nsec)
         == UnixMilli(year + 1, month, day, hour, min, sec, nsec)
  {
    assert (month + 12 - 1) / 12 == (month - 1) / 12 + 1;
    assert (month + 12 - 1) % 12 == (month - 1) % 12;
  }
}
