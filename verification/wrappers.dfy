/** Optional values and two-way results shared by the other modules.
    `Option` stands for Go's nil-or-value (a nil reference, an unset flag, a nil error);
    `Result` for the `(value, error)` pairs the Go code returns. */
module Wrappers {

  datatype Option<+T> = None | Some(value: T)

  datatype Result<+T, +E> = Success(value: T) | Failure(error: E)
}
