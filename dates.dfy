/** Calendar instants. The application stores each date as an ISO string and
    turns it into a JavaScript `Date`; date-fns then compares those in local
    time. Here an instant is its local calendar day plus the milliseconds since
    local midnight, so every comparison the application makes is a comparison
    of these fields. */
module Dates {

  datatype Instant = Instant(year: int, month: int, day: int, millis: int)

  /** `a.getTime() <= b.getTime()`: lexicographic on (year, month, day, millis). */
  predicate NotAfter(a: Instant, b: Instant) {
    a.year < b.year
    || (a.year == b.year && a.month < b.month)
    || (a.year == b.year && a.month == b.month && a.day < b.day)
    || (a.year == b.year && a.month == b.month && a.day == b.day && a.millis <= b.millis)
  }

  /** date-fns `isSameDay(a, b)`. */
  predicate SameDay(a: Instant, b: Instant) {
    a.year == b.year && a.month == b.month && a.day == b.day
  }

  /** date-fns `isSameMonth(a, m)` for the month `month` of year `year`. */
  predicate InMonth(a: Instant, year: int, month: int) {
    a.year == year && a.month == month
  }

  lemma NotAfterTransitive(a: Instant, b: Instant, c: Instant)
    requires NotAfter(a, b) && NotAfter(b, c)
    ensures NotAfter(a, c)
  {
  }
}
