/** Dates and clock readings as Python's `datetime` sees them.  A calendar day
    is its proleptic Gregorian ordinal (`date.toordinal()`: 0001-01-01 is day 1,
    a Monday), so adding `timedelta(days=n)` is adding `n`, and `weekday()` is
    `(ordinal + 6) % 7` with Monday = 0 and Thursday = 3. */
module Calendar {

  const Thursday: int := 3

  function Weekday(day: int): (w: int)
    ensures 0 <= w < 7
  {
    (day + 6) % 7
  }

  predicate IsLeap(year: int) {
    year % 4 == 0 && (year % 100 != 0 || year % 400 == 0)
  }

  function DaysInMonth(year: int, month: int): (n: int)
    requires 1 <= month <= 12
    ensures 28 <= n <= 31
  {
    if month == 2 then (if IsLeap(year) then 29 else 28)
    else if month == 4 || month == 6 || month == 9 || month == 11 then 30
    else 31
  }

  /** Days in the months of `year` before `month`. */
  function DaysBeforeMonth(year: int, month: int): int
    requires 1 <= month <= 12
  {
    if month == 1 then 0 else DaysBeforeMonth(year, month - 1) + DaysInMonth(year, month - 1)
  }

  /** Days in the years before `year`. */
  function DaysBeforeYear(year: int): int
    requires year >= 1
  {
    var y := year - 1;
    y * 365 + y / 4 - y / 100 + y / 400
  }

  /** A calendar date as `datetime(year, month, day)` accepts it. */
  datatype Date = Date(year: int, month: int, day: int)

  predicate ValidDate(d: Date) {
    1 <= d.year <= 9999 && 1 <= d.month <= 12 && 1 <= d.day <= DaysInMonth(d.year, d.month)
  }

  /** `date.toordinal()`. */
  function Ordinal(d: Date): int
    requires ValidDate(d)
  {
    DaysBeforeYear(d.year) + DaysBeforeMonth(d.year, d.month) + d.day
  }

  /** A local clock reading: the calendar day as an ordinal and the time of day. */
  datatype DateTime = DateTime(day: int, hour: int, minute: int, second: int, micro: int)

  predicate ValidDateTime(t: DateTime) {
    t.day >= 1 && 0 <= t.hour < 24 && 0 <= t.minute < 60 && 0 <= t.second < 60 && 0 <= t.micro < 1000000
  }

  /** Microseconds since the start of day 0; comparison of instants is
      comparison of these numbers for valid readings. */
  function Instant(t: DateTime): int {
    (((t.day * 24 + t.hour) * 60 + t.minute) * 60 + t.second) * 1000000 + t.micro
  }
}
