/** Go's `error` results and the optional values the logger passes around. */
module Wrappers {

  /** An `error` value. The logger never inspects errors it did not create, so
      every error coming from the runtime (a failed write, a failed close, a
      failed json.Marshal, a file that cannot be opened) is one opaque `Failure`. */
  datatype Error =
    | Failure(code: nat)
    | UnknownTransportType(transportType: string)

  datatype Option<+T> = None | Some(value: T)

  /** A `(value, error)` pair where exactly one half is meaningful. */
  datatype Result<+T> = Ok(value: T) | Err(error: Error)
}
