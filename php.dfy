/** The few PHP value rules the adapter relies on. */
module Php {

  /** A PHP value that may be null. */
  datatype Option<+T> = None | Some(value: T)

  /** PHP's `empty()` on a string: true for "" and for "0". */
  predicate EmptyString(s: string)
  {
    s == "" || s == "0"
  }

  /** PHP's `empty()` on a nullable string: null is empty too. */
  predicate Empty(s: Option<string>)
  {
    s.None? || EmptyString(s.value)
  }

  /** PHP's `(string)` cast of a nullable string: null becomes "". */
  function CastString(s: Option<string>): string
  {
    if s.None? then "" else s.value
  }
}
