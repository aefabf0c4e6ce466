/**
 * Failure-carrying values, used where the Go code returns a nil pointer,
 * a (value, error) pair or a bare error.
 */
module Wrappers {

  /** A value that may be absent, such as a nil *bool. */
  datatype Option<+T> = None | Some(value: T)

  /** A Go (value, error) pair where exactly one side is meaningful. */
  datatype Result<+T, +E> = Success(value: T) | Failure(error: E)

  /** A bare Go error return: Pass stands for nil. */
  datatype Outcome<+E> = Pass | Fail(error: E)

  /** The error half of a (value, error) pair, as in `_, err := f(); return err`. */
  function ErrorOf<T, E>(r: Result<T, E>): (o: Outcome<E>)
  {
    match r
    case Success(_) => Pass
    case Failure(e) => Fail(e)
  }
}
