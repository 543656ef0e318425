/** The binding's error values and its `Result` alias. */
module Errors {

  /** One value per way a binding call can fail. `CStringNul` stands for a
      string argument that holds an embedded NUL byte; it records the
      byte's position. */
  datatype Error =
    | ProcessKey
    | CloseSession
    | SessionNotExists
    | SimulateKeySequence
    | CreateSession
    | GetStatus
    | CStringNul(nulPosition: nat)

  /** A binding result: a value, or the error that stopped the call. */
  datatype Result<T> = Ok(value: T) | Err(error: Error)
}
