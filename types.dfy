/** Shared vocabulary of the ledger: account identifiers, optional values, and the
    exceptions the Python code raises, turned into error values. */
module Types {

  /** Accounts (humans) are identified by integers, as HubAgent hands them out. */
  type Id = int

  datatype Option<+T> = None | Some(value: T)

  /** One constructor per exception the modelled code can raise. */
  datatype Error =
    | Overflow                   // OverflowError from add_fixed / sub_fixed
    | EmptyMax                   // ValueError: max() of an empty collection
    | MissingKey                 // KeyError on a dictionary lookup
    | UndefinedName              // NameError: the negative-issuance diagnostic names `T`
    | MissingAttribute           // AttributeError: Circles has no calculate_discounted_balance
    | DayBeforeLastUpdate        // "Day is before last updated day"
    | AboveMaxValue              // "Balance exceeds maximum value"
    | UnknownHuman               // "Human ID not found in balances"
    | InsufficientForInvitation  // "Insufficient balance for invitation"
    | InsufficientForBurn        // "Insufficient balance for burning"
    | SameSenderReceiver         // "Sender and receiber are same"
    | InsufficientForTransfer    // "Insufficient balance for transfer"
    | NoTrust                    // "Receiver does not trust sender"
    | ExceedsTrust               // "Transfer amount exceeds trust amount"
    | TrustExpired               // "Trust has expired"

  /** The value an operation returns, or the exception it raises. */
  datatype Result<+T> = Ok(value: T) | Err(error: Error)
}
