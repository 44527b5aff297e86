/** Optional values and the success-or-error results that stand in for
    Python's `None` defaults and raised exceptions throughout the model. */
module Outcomes {

  /** An optional value: the model's reading of a Python argument that may be `None`. */
  datatype Option<T> = None | Some(value: T)

  /** The outcome of an operation that either returns a value or raises an exception. */
  datatype Result<T, E> = Ok(value: T) | Err(error: E)

}
