/** Small value types shared by every page model. */
module Common {

  /** A value that may be absent: JavaScript's `null` or `undefined`. */
  datatype Option<+T> = None | Some(value: T) {

    /** The wrapped value, or `default` when absent (JavaScript's `x ?? default`). */
    function GetOr(default: T): T {
      match this
      case Some(v) => v
      case None => default
    }
  }

  /** The outcome of an operation that may throw: a value, or the error thrown. */
  datatype Result<+T, +E> = Success(value: T) | Failure(error: E)

  /** A toast notification as passed to the UI's `toast(...)` call. */
  datatype Toast = Toast(title: string, description: string, destructive: bool)
}
