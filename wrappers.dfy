/** Optional values and exception-carrying results. */
module Wrappers {

  /** A Java reference that may be null. */
  datatype Option<T> = None | Some(value: T)

  /** The exceptions the reconciler lets escape to its caller. */
  datatype Exception =
    | NumberFormatException  // the range's digits do not fit a 32-bit int
    | ParseException         // the single-date argument is not a compact date

  datatype Result<T> = Ok(value: T) | Err(error: Exception)
}
