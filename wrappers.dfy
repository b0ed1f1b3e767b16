/** Result wrappers used across the model: `Option` for the
    source's nullable references, `Result` and `Outcome` for the exceptions
    the source throws on its error paths. */
module Wrappers {

  datatype Option<+T> = None | Some(value: T)

  datatype Result<+R, +E> = Success(value: R) | Failure(error: E)

  datatype Outcome<+E> = Pass | Fail(error: E)
}
