/** Failure-carrying wrappers used for the launcher's error returns: a Go
    function returning `(value, error)` becomes a `Result`, a Go pointer that
    may be `nil` becomes an `Option`. */
module Results {

  datatype Option<+T> = None | Some(value: T)

  datatype Result<+T, +E> = Success(value: T) | Failure(error: E)
}
