/**
 * The error kinds of the relay client (ffrelay-api/src/error.rs) and the
 * client's `Result` alias.
 */
module Errors {

  /** Rust's `u16`, the type of an HTTP status code. */
  type u16 = x: int | 0 <= x < 0x1_0000

  datatype Error =
    | RequestFailure(httpStatus: u16)
    | RelayIdNotFound
    | EmailDeletionFailure(httpStatus: u16)
    // Used by the PATCH helper; the enum in error.rs does not declare it.
    | EmailUpdateFailure(httpStatus: u16)
    // Transport failure reported by the HTTP client library.
    | HttpError
    // A response body that does not decode into the expected record.
    | Serialization

  datatype Result<+T> = Ok(value: T) | Err(error: Error)
}
