/** Option and Result values used where the source returns `undefined`, `false`
    or logs an error instead of producing a value. */
module Wrappers {

  datatype Option<+T> = None | Some(value: T)

  datatype Result<+R, +E> = Success(value: R) | Failure(error: E)
}
