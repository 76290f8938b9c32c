/** Failure values of the ledger. Every exception the ledger raises happens before
    it changes any state, so a failure is modelled as a value and the state stays as it was. */
module Outcomes {

  /** The three ways an operation of the ledger can fail.
      InvalidRate: a rate above 1 (`ValueError` in `Portfolio._add` / `_remove`).
      InsufficientPosition: removing more than is held (`ValueError` in `_Position.remove`).
      DivisionByZero: a `ZeroDivisionError` raised by the sizing or averaging division. */
  datatype Error = InvalidRate | InsufficientPosition | DivisionByZero

  /** A value, or the error that prevented computing it. */
  datatype Result<+T> = Ok(value: T) | Err(error: Error)

  /** The outcome of an operation that returns nothing: it either passed or raised. */
  datatype Outcome = Pass | Fail(error: Error)
}
