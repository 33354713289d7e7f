/** Failure-compatible results shared by every module. */
module Wrappers {

  datatype Option<+T> = None | Some(value: T)

  /** The errors the wallet reports, one constructor for each cause the model tells apart.
      `Overflow`, `DivisionByZero` and `MissingElement` stand for the places where the daemon
      traps instead of returning an error (unchecked u64 arithmetic, `unwrap`, indexing). */
  datatype WalletError =
    | InsufficientFunds(required: nat, available: nat)
    | FeeTooLow(provided: nat, floor: nat)
    | BuildFailed
    | UtxoNotFound
    | InvalidAddress
    | FetchFailed
    | InvalidArgument
    | Bip32Derivation
    | NotFullySigned
    | LaneMismatch
    | NotYetSynced
    | Rejected
    | VerifyFailed
    | Overflow
    | DivisionByZero
    | MissingElement
    | OutOfFuel

  datatype Result<+T> = Ok(value: T) | Err(error: WalletError) {
    predicate IsFailure() {
      Err?
    }

    function PropagateFailure<U>(): Result<U>
      requires Err?
    {
      Err(error)
    }

    function Extract(): T
      requires Ok?
    {
      value
    }
  }

  datatype Outcome = Pass | Fail(error: WalletError) {
    predicate IsFailure() {
      Fail?
    }

    function PropagateFailure<U>(): Result<U>
      requires Fail?
    {
      Err(error)
    }
  }

  function Need(condition: bool, error: WalletError): Outcome {
    if condition then Pass else Fail(error)
  }
}
