/**
  Calendar periods. A `(month, year)` query selects the half-open date range
  `[year-month-01, first day of the next month)`; December rolls over to
  January 1st of the next year.
 */
module Period {

  /** A calendar date. Dates are compared field by field (year, then month, then
      day), which is how zero-padded ISO strings and SQL dates both compare. */
  datatype Date = Date(year: int, month: int, day: int)

  predicate Before(a: Date, b: Date) {
    a.year < b.year
    || (a.year == b.year && a.month < b.month)
    || (a.year == b.year && a.month == b.month && a.day < b.day)
  }

  /** A date as the front end submits it: a month 1..12 and a day of at least 1. */
  predicate WellFormed(d: Date) {
    1 <= d.month <= 12 && 1 <= d.day
  }

  /** The first day of the period: `f"{year}-{month:02d}-01"`. */
  function PeriodStart(month: int, year: int): Date {
    Date(year, month, 1)
  }

  /** The exclusive end of the period: the first of the next month. */
  function PeriodEnd(month: int, year: int): (d: Date)
    ensures d.day == 1
    ensures month == 12 ==> d == Date(year + 1, 1, 1)
    ensures month != 12 ==> d == Date(year, month + 1, 1)
  {
    if month == 12 then Date(year + 1, 1, 1) else Date(year, month + 1, 1)
  }

  /** `date >= start AND date < end`. */
  predicate InPeriod(d: Date, month: int, year: int) {
    !Before(d, PeriodStart(month, year)) && Before(d, PeriodEnd(month, year))
  }

  /** The month that follows `(month, year)`: counting months from year 0, it is
      the very next one, and it is a real month. */
  function NextMonth(month: int, year: int): (r: (int, int))
    requires 1 <= month <= 12
    ensures 1 <= r.0 <= 12
    ensures r.1 * 12 + r.0 == year * 12 + month + 1
  {
    if month == 12 then (1, year + 1) else (month + 1, year)
  }

  /** The range of each month ends exactly where the next month's range starts. */
  lemma PeriodsAbut(month: int, year: int)
    requires 1 <= month <= 12
    ensures PeriodEnd(month, year) == PeriodStart(NextMonth(month, year).0, NextMonth(month, year).1)
  {
  }

  /** The start of a period lies in it, its end does not. */
  lemma PeriodIsHalfOpen(month: int, year: int)
    ensures InPeriod(PeriodStart(month, year), month, year)
    ensures !InPeriod(PeriodEnd(month, year), month, year)
  {
  }

  /** A well-formed date belongs to the period of a real month exactly when it
      carries that month and year. */
  lemma InPeriodIff(d: Date, month: int, year: int)
    requires WellFormed(d) && 1 <= month <= 12
    ensures InPeriod(d, month, year) <==> d.year == year && d.month == month
  {
  }

  /** Two periods of real months never overlap. */
  lemma PeriodsDisjoint(d: Date, m1: int, y1: int, m2: int, y2: int)
    requires 1 <= m1 <= 12 && 1 <= m2 <= 12
    requires InPeriod(d, m1, y1) && InPeriod(d, m2, y2)
    ensures m1 == m2 && y1 == y2
  {
  }
}
