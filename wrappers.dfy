/**
 * Option and Result: the two shapes every fallible or nullable operation of
 * the library takes in this model. A `NULL` return becomes `None`; a `NULL`
 * return with a `GError` set becomes `Failure`.
 */
module Wrappers {

  datatype Option<T> = None | Some(value: T)

  datatype Result<T, E> = Success(value: T) | Failure(error: E)
}
