/** Results of the ceremony's operations. */
module Outcomes {

  datatype Option<+T> = None | Some(value: T)

  /** Why generating or verifying a contribution failed. */
  datatype Failure =
    | ParamsMismatch
    | ShapeMismatch
    | TrivialContribution
    | ContributionHashMismatch
    | MultipairingEquationNonZeroResult

  /** The outcome of a call: a value, an error, or a failed assertion of the program. */
  datatype Outcome<+T> =
    | Ok(value: T)
    | Err(failure: Failure)
    | Panic
  {
    predicate IsFailure() {
      !Ok?
    }

    function PropagateFailure<U>(): Outcome<U>
      requires IsFailure()
    {
      match this
      case Err(f) => Err(f)
      case Panic => Panic
    }

    function Extract(): T
      requires Ok?
    {
      value
    }
  }

  datatype Unit = Unit

  /** The outcome of decoding: a value, an error, or a failed assertion of the decoder. */
  datatype Decoded<+T> = Parsed(value: T) | Malformed | Panicked
}
