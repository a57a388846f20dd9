/** Failure-carrying results shared by the modules of this model. */
module Wrappers {

  datatype Option<+T> = None | Some(value: T)

  /**
   * An error as the library surfaces it: either a plain message raised by
   * the library itself, or a failure reported by the HTTP transport
   * (network, HTTP status, JSON decoding), which this model treats as opaque.
   */
  datatype Error = Msg(message: string) | Transport(cause: string)

  /** The library's `Result<T>`: a value or an error. */
  datatype Result<+T> = Ok(value: T) | Err(error: Error)
}
