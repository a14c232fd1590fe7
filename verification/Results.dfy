/** Results of operations that may throw, and optional values. */
module Results {

  datatype Option<+T> = None | Some(value: T) {
    function GetOr(default: T): T {
      match this
      case Some(v) => v
      case None => default
    }
  }

  /** The errors thrown by the channel ledger and the engine. */
  datatype Error =
    | AppDoesNotExist
    | AgreementDoesNotExist
    | NoFreeBalance
    | CorruptFreeBalance
    | NegativeBalance
    | IncorrectParticipants
    | ConsistencyError
    | NoInstalledApps
    | NotAnOwner
    | UnsupportedOutcome
    | DifferentAssets
    | NoDeposit
    | NoChannel
    | OutcomeMismatch

  datatype Result<+T> = Ok(value: T) | Err(error: Error) {
    predicate IsFailure() {
      Err?
    }

    function PropagateFailure<U>(): Result<U>
      requires Err?
    {
      Err(error)
    }

    function Extract(): T
      requires Ok?
    {
      value
    }
  }
}
