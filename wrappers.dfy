/** Failure-carrying datatypes shared by the ledger engine and the solver. */
module Wrappers {

  datatype Option<+T> = None | Some(value: T)

  datatype Result<+R, +E> = Success(value: R) | Failure(error: E)

  /** A pass/fail result that carries no value on success. */
  datatype Outcome<+E> = Pass | Fail(error: E)
}
