/** An optional value (an omitted argument, a missing header) and a
    value-or-error result (the outcome of fetch and of JSON parsing). */
module Wrappers {

  datatype Option<+T> = None | Some(value: T)

  datatype Result<+R, +E> = Success(value: R) | Failure(error: E)
}
