/** Optional values and error-carrying results. The C++ source signals "no value" with
    std::optional and failures with a false return plus an error string, or with a thrown
    std::runtime_error; the model turns all of these into explicit values. */
module Outcomes {

  datatype Option<+T> = None | Some(value: T)

  /** A value, or an error carrying the human-readable reason the source would report. */
  datatype Result<+T> = Ok(value: T) | Err(error: string)
}
