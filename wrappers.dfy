/** Optional values and the exceptions the Java code throws. */
module Wrappers {

  /** A Java reference that may be `null`. */
  datatype Option<+T> = None | Some(value: T)

  /** What a Java method throws: a plain `Exception` with its message, a
      `NullPointerException` from dereferencing `null`, or the
      `NumberFormatException` of `Integer.valueOf` on the given input. */
  datatype Thrown =
    | Exception(message: string)
    | NullPointerException
    | NumberFormatException(input: string)

  /** The outcome of a Java method that returns a value or throws. */
  datatype Result<+T> = Success(value: T) | Failure(error: Thrown)
}
