/** Option and Result: Java's nullable references, Optional values and thrown exceptions. */
module Wrappers {

  /** `None` stands for Java's `null` (or `Optional.empty()`), `Some(v)` for a present value. */
  datatype Option<+T> = None | Some(value: T)

  /** The outcome of a Java call that either returns a value or throws. */
  datatype Result<+R, +E> = Ok(value: R) | Err(error: E)
}
