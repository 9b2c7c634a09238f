/** Types shared by every module of the model. */
module Prelude {

  datatype Option<T> = None | Some(value: T)

  /** An error value, standing for Go's `error`; only its message is observable. */
  datatype Error = Error(message: string)

  datatype Result<T> = Ok(value: T) | Err(error: Error)

  /** Go's `time.Time` and `time.Duration`, as integer nanoseconds; the int64 overflow of `now.Add` is not modelled. */
  type Time = int
  type Duration = int
}
