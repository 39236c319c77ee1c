/** Small shared vocabulary: optional values, JavaScript-style "may throw" results
    and the HTTP status class both sides of the round-trip test. */
module Common {

  /** A value that may be absent (`undefined` in the source). */
  datatype Option<+T> = None | Some(value: T)

  /** The result of a step that either yields a value or throws. */
  datatype Outcome<+T, +E> = Value(value: T) | Throw(error: E)

  /** `Response.ok` of the Fetch standard: the status is in the range 200-299. */
  predicate IsOk(status: nat)
  {
    200 <= status <= 299
  }
}
