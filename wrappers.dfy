/** Option and Result values for the library's nullable references and exceptions. */
module Wrappers {

  /** A value that may be absent, standing for a nullable reference. */
  datatype Option<+T> = None | Some(value: T)

  /** The exceptions the library throws, by kind. */
  datatype Error =
    | InvalidPolygon       // fewer than three vertices
    | NotSupported         // NotSupportedException
    | InvalidArgument      // ArgumentException
    | Mismatch             // a plain Exception for mismatched inputs
    | NullReference        // unboxing null or dereferencing null
    | IndexOutOfRange      // a list index outside its bounds
    | InvalidOperation     // First() of a sequence with no match

  /** The outcome of an operation that may throw. */
  datatype Result<+R> = Success(value: R) | Failure(error: Error)
}
