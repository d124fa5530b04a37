/** The two exception classes a serial port operation can throw, as values.
    SerialTimeoutException is not a kind of SerialError: both derive directly
    from std::runtime_error, so a caller can tell a timeout from every other
    failure. */
module Outcomes {

  datatype Failure =
    | SerialError(msg: string)
    | SerialTimeoutException(msg: string)

  /** Result of an operation that returns nothing (a C++ `void` member). */
  datatype Outcome = Pass | Fail(failure: Failure)

  /** Result of an operation that returns a value. */
  datatype Result<T> = Ok(value: T) | Err(failure: Failure)

  datatype Option<T> = None | Some(value: T)

  /** The error every guarded operation throws on a closed port. */
  function ClosedError(op: string): (f: Failure)
    ensures f.SerialError? && f.msg == "Serial " + op + ": Serial is closed."
  {
    SerialError("Serial " + op + ": Serial is closed.")
  }
}
