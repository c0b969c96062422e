/** Optional values and the Python exceptions that the analysed code lets escape. */
module Wrappers {

  /** A value that may be missing: Python's `None` or an absent dictionary key. */
  datatype Option<+T> = None | Some(value: T)

  /** The exceptions the modelled code can raise at run time. */
  datatype Exception =
    | ZeroDivisionError   // a float division by 0.0
    | ValueError          // float() applied to text that is not a number

  /** The result of a computation that either returns or raises. */
  datatype Outcome<+T> = Ok(value: T) | Raised(error: Exception)
}
