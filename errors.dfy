/** The exceptions xiao-asgi raises, and the wrappers that carry them where
    the Python code would `raise`. */
module Errors {

  datatype Option<+T> = None | Some(value: T)

  /** Every way an operation of the adapter can end abnormally. */
  datatype Error =
    | ProtocolUnknown             // make_connection: scope type has no connection class
    | ProtocolMismatch            // a route was handed a connection of the other protocol
    | InvalidConnectionState      // a send or receive the connection's state forbids
    | ValueError                  // Connection.__init__: scope type is not the class protocol
    | UnpackError                 // unpacking into two names an iterable of another length
    | KeyError(key: string)       // a missing dictionary key
    | AttributeError              // getattr miss, or a method (`split`, `decode`) the value lacks
    | TypeError                   // iterating a non-iterable, an unhashable key, a call of a non-callable
    | NoMessage                   // the receive primitive had no message to deliver
    | Raised(name: string)        // an exception raised by an application endpoint

  /** A value, or the exception raised instead of returning it. */
  datatype Result<+T> = Ok(value: T) | Err(error: Error)

  /** Normal completion of a procedure returning None, or the exception it raised. */
  datatype Outcome = Pass | Fail(error: Error)
}
