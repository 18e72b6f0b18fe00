/** The optional value used wherever the budget engine has no number to give:
    a ratio whose divisor is zero, an amount text that does not parse, an
    analysis that a lookup by id did not find. */
module Wrappers {

  /** Either no value, or exactly one. */
  datatype Option<T> = None | Some(value: T)

  /** The held value, or `fallback` when there is none: JavaScript's
      `x || fallback` on a number that may be NaN. */
  function ValueOr<T>(o: Option<T>, fallback: T): T
  {
    if o.Some? then o.value else fallback
  }
}
