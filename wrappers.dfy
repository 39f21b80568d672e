/** Option and Result, used for Java's null and for exceptions that abort an operation. */
module Wrappers {

  /** `None` stands for Java's `null` (an absent key, a missing file). */
  datatype Option<+T> = None | Some(value: T) {

    /** This value when present, otherwise `other`: the first present value of a chain. */
    function Or(other: Option<T>): Option<T> {
      if Some? then this else other
    }
  }

  /** `Failure` stands for an exception that ends the operation. */
  datatype Result<+R, +E> = Success(value: R) | Failure(error: E)
}
