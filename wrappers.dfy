/** The Option type that stands in for Java's nullable return values. */
module Wrappers {

  /** `None` is Java's `null`; `Some(v)` is a non-null value `v`. */
  datatype Option<+T> = None | Some(value: T)
}
