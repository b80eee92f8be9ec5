/** Shared vocabulary of the budget and dayparting engine: optional values,
    the error outcomes the core raises, money, days and the clock reading
    that every time-dependent operation receives as a parameter. */
module Common {

  datatype Option<+T> = None | Some(value: T) {
    function GetOr(default: T): T {
      match this
      case Some(v) => v
      case None => default
    }
  }

  /** The exceptions the core raises, as values. */
  datatype Error =
    | InvalidAmount      // ValueError: a spend amount that is not positive
    | InvalidSchedule    // ValidationError: end time not after start time
    | DuplicateSchedule  // IntegrityError: (campaign, day, start, end) already stored
    | MultipleSchedules  // MultipleObjectsReturned from the per-day schedule lookup
    | StorageFailure     // an opaque failure of a row write
    | InvalidBudget      // ValidationError: a negative brand budget

  datatype Result<+T> = Ok(value: T) | Err(error: Error)

  datatype Outcome = Pass | Fail(error: Error)

  /** Money as integer cents: every amount field has two decimal places. */
  type Cents = int

  type CampaignId = nat

  /** Day of the week, 0 = Monday .. 6 = Sunday. */
  type Day = d: int | 0 <= d < 7

  const Monday: Day := 0
  const Sunday: Day := 6

  const SecondsPerDay: int := 86400

  /** Time of day with one-second resolution: 00:00:00 is 0, 23:59:59 is 86399. */
  type SecondOfDay = s: int | 0 <= s < SecondsPerDay

  datatype Date = Date(year: int, month: int, day: int)

  /** One reading of the clock: the calendar date, its weekday and its time of day. */
  datatype Moment = Moment(date: Date, weekday: Day, second: SecondOfDay)
}
