/** JavaScript `Date` objects, abstracted so that no floating point is involved. */
module Dates {
  import opened Wrappers

  /** A `Date` either holds a finite time value (milliseconds since the epoch)
      or is an "Invalid Date", whose `getTime()` is NaN. */
  datatype Date = ValidDate(epochMs: int) | InvalidDate

  /** `isValid(d)`: `getTime()` is not NaN. */
  function IsValid(d: Date): (r: bool)
    ensures r <==> d != InvalidDate
  {
    d.ValidDate?
  }

  /** `isNullOrInvalid(d)` from the `dates` helper module: no date, or a date
      that is not valid. */
  predicate IsNullOrInvalid(d: Option<Date>) {
    d.None? || !IsValid(d.value)
  }
}
