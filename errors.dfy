/**
 * Option, Result and the typed errors of the ONOS error library that the
 * simulator core returns (`errors.New(errors.NotFound, ...)` and friends).
 */
module Errors {

  datatype Option<+T> = None | Some(value: T)

  datatype Result<+T> = Ok(value: T) | Err(error: Error)

  /** The error kinds the core raises; `Other` stands for an error produced by a collaborator outside the model. */
  datatype ErrorKind = NotFound | NotSupported | Invalid | Unknown | Other(code: int)

  /** An error value; its human-readable message is not modelled. */
  datatype Error = Error(kind: ErrorKind)

  /** A Go byte slice: nil, or a (possibly empty) sequence of bytes. */
  datatype ByteSlice = Nil | Bytes(data: seq<bv8>)

  /** The `(response, failure, err)` triple an E2AP handler returns; each part may be nil. */
  datatype Reply<R, F> = Reply(response: Option<R>, failure: Option<F>, err: Option<Error>)

  /** A reply carrying only the error `e`. */
  function ErrorReply<R, F>(e: Error): Reply<R, F> {
    Reply(None, None, Some(e))
  }

  /** Go's `int32`. */
  newtype int32 = x: int | -0x8000_0000 <= x < 0x8000_0000
}
