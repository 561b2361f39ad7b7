/** Option and Result values used for Python's `None` and for its exceptions. */
module Wrappers {

  datatype Option<+T> = None | Some(value: T)

  /** The Python exceptions that escape from the modelled code. */
  datatype Failure =
    | TypeError   // ordering comparison between None and a date
    | ValueError  // a date string that does not parse

  datatype Result<+R> = Success(value: R) | Err(error: Failure)
}
