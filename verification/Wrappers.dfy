/** The two result shapes the models share. */
module Wrappers {

  datatype Option<+T> = None | Some(value: T)

  /** The error codes of the client (Error.h, ErrorCode.h); message texts are not modelled. */
  datatype ErrorCode =
    | InvalidSession
    | NoSession
    | LoginFailed
    | LoginTimeout
    | InvalidMessage
    | BadResponse
    | UnexpectedResponse
    | ResponseTimeout
    | Transport
    | NoConnection
    | ConnectionTimeout
    | ConnectionRefused

  datatype Result = Ok | Err(code: ErrorCode)
}
