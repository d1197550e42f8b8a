/** Results: optional values, and the three ways a keeper call can end. */
module Outcome {

  datatype Option<+T> = None | Some(value: T)

  /** Errors returned by the keeper, the handler, or what they call. */
  datatype Error =
    | CreateFailed | AccountExists | InstantiateFailed | ExecuteFailed
    | ContractNotFound | CodeNotFound
    | InvalidAddress | InvalidCoins | InsufficientCoins
    | Unauthorized | UnknownRequest | UndecodableMsg | InvalidMsg | BankRefused

  /** What was being paid for when the gas ran out. */
  datatype Charged = StoreAccess | WasmContract

  /** Go panics, which unwind the whole call tree. */
  datatype Panic =
    | OutOfGas(what: Charged) | UnknownCosmosMsg | NilAccount
    | GenesisCreateFailed | CodeHashMismatch | MissingCode

  datatype Out<+T> = Ok(value: T) | Err(error: Error) | Panicked(panic: Panic) {
    predicate IsFailure() {
      !Ok?
    }

    function PropagateFailure<U>(): Out<U>
      requires IsFailure()
    {
      match this
      case Err(e) => Err(e)
      case Panicked(p) => Panicked(p)
    }

    function Extract(): T
      requires Ok?
    {
      value
    }
  }
}
