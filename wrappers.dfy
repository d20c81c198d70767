/** Failure-carrying values shared by the calendar modules. */
module Wrappers {

  datatype Option<+T> = None | Some(value: T)

  /** The two ways a conversion of the source ends in an exception. */
  datatype CalError =
    | NoMonthPassed   // get_month returns `name`/`luck` that were never bound
    | DayUnset        // __repr__ reads `self.day`, which get_week never assigned

  datatype Result<+T> = Success(value: T) | Failure(error: CalError)
}
