/** Failure-carrying results shared by the ledger and the token program. */
module Wrappers {

  /** The value of an instruction that may fail with an error of type E. */
  datatype Result<T, E> = Ok(value: T) | Err(error: E) {

    /** The committed value, or `prior` when the instruction failed:
        a failed transaction leaves no trace. */
    function ValueOr(prior: T): T {
      match this
      case Ok(v) => v
      case Err(_) => prior
    }

    /** Forgets the value, keeping only success or the error. */
    function ToOutcome(): Outcome<E> {
      match this
      case Ok(_) => Pass
      case Err(e) => Fail(e)
    }
  }

  /** `Result<()>` in the program: success or an error. */
  datatype Outcome<E> = Pass | Fail(error: E)
}
