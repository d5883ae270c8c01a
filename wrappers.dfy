/** Optional values and exception outcomes shared by the whole model. */
module Wrappers {

  /** A Java reference that may be null. */
  datatype Option<+T> = None | Some(value: T)

  /** The Java exceptions the core throws; each becomes an explicit failure value. */
  datatype Error =
    | IllegalArgument       // java.lang.IllegalArgumentException
    | IllegalState          // java.lang.IllegalStateException
    | NullPointer           // java.lang.NullPointerException
    | IndexOutOfBounds      // java.lang.IndexOutOfBoundsException
    | UnsupportedOperation  // java.lang.UnsupportedOperationException

  /** Either the value a Java method returns or the exception it throws. */
  datatype Result<+T> = Success(value: T) | Failure(error: Error)
}
