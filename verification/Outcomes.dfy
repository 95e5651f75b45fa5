/** Error values shared by the UTXO planner and the services that call it. */
module Outcomes {

  datatype Error =
    | Validation
    | InsufficientFunds
    | UnsupportedRuntime
    | InvalidAddress
    | InvalidAmount
    | InsufficientBalance
    | Incompatible
    | Negative
    | ReservationConflict
    | Unavailable

  datatype Outcome<+T> = Ok(value: T) | Err(error: Error)

  datatype Option<+T> = None | Some(value: T)
}
