/** The result of a Go call that may panic, shared by the browser and the error constructor. */
module Outcomes {
  /** A call either returns a value or panics. */
  datatype Outcome<T> = Ok(value: T) | Panic
}
