/** Option and Outcome: a Java `null` and a thrown business-rule exception, as values. */
module Wrappers {

  /** A value that may be absent: a nullable Java reference. */
  datatype Option<+T> = None | Some(value: T)

  /** The result of a `void` Java method that may throw: Pass, or Fail with the error. */
  datatype Outcome<+E> = Pass | Fail(error: E)
}
