/** Identifiers, optional values, service errors and calendar dates shared by every service. */
module Common {

  /** Primary keys of every table. */
  type Id = nat

  /** The authenticated owner every record is scoped to. */
  type UserId = nat

  datatype Option<+T> = None | Some(value: T)

  /** The three HTTP failures the services raise: 404, 409 and 400. */
  datatype Error = NotFound | Conflict | BadRequest

  datatype Result<+T> = Success(value: T) | Failure(error: Error)

  /** A calendar day; the time of day is not modelled. */
  datatype Date = Date(year: int, month: int, day: int)

  predicate WellFormedDate(d: Date) {
    1 <= d.month <= 12 && 1 <= d.day <= 31
  }

  /** A number that orders well-formed dates chronologically. */
  function Ordinal(d: Date): int {
    d.year * 384 + (d.month - 1) * 32 + d.day
  }

  /** Inclusive date-range filter (`gte: start, lte: end`). */
  predicate InRange(d: Date, start: Date, end: Date) {
    Ordinal(start) <= Ordinal(d) <= Ordinal(end)
  }

  /** First and last day of a calendar month: the range a monthly report queries. */
  function MonthStart(year: int, month: int): Date {
    Date(year, month, 1)
  }

  function MonthEnd(year: int, month: int): Date {
    Date(year, month, 31)
  }

  /** The month range holds exactly the well-formed dates of that month. */
  lemma MonthRangeExact(d: Date, year: int, month: int)
    requires WellFormedDate(d) && 1 <= month <= 12
    ensures InRange(d, MonthStart(year, month), MonthEnd(year, month)) <==> d.year == year && d.month == month
  {
    if d.year < year {
      assert Ordinal(d) <= (year - 1) * 384 + 11 * 32 + 31;
    } else if d.year > year {
      assert Ordinal(d) >= (year + 1) * 384 + 1;
    }
  }
}
