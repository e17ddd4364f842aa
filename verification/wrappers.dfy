/** Option and Result for the client model.
    - Option<T> stands for Python's Optional[T] (None or a value).
    - Result<R, E> stands for "returns R or raises E".
 */
module Wrappers {

  datatype Option<+T> = None | Some(value: T)

  datatype Result<+R, +E> = Success(value: R) | Failure(error: E)
}
