/** Option, Result and Outcome: the values that stand for Java's null and for
    the exceptions the registry throws. */
module Wrappers {

  /** `None` stands for a Java `null` reference. */
  datatype Option<+T> = None | Some(value: T)

  /** The value of a call that either returns or throws. */
  datatype Result<+R, +E> = Success(value: R) | Failure(error: E)

  /** The value of a call that returns nothing of interest or throws. */
  datatype Outcome<+E> = Pass | Fail(error: E)
}
