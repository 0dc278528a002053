/** Option and Result values used for the absent results and the exceptions of the mining client. */
module Wrappers {

  /** `None` stands for Python's `None` (a search that found nothing, a failed attempt). */
  datatype Option<+T> = None | Some(value: T)

  /** `Err` stands for an exception the client raises. */
  datatype Result<+T, +E> = Ok(value: T) | Err(error: E)
}
