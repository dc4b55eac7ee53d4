/** The failures an instruction can end with, and the result type every
    transition returns. */
module Errors {

  /** The program's own error codes, in declaration order. */
  datatype ErrorCode =
    | Unauthorized
    | InvalidVault
    | InvalidTokenMint
    | InvalidTradeType
    | InvalidTokenAccounts
    | InvalidAgentOwner

  /** Failures of the account-validation layer, raised before a handler runs. */
  datatype ConstraintError =
    | AccountAlreadyInUse     // `init` on an address that already holds an account
    | AccountNotInitialized   // a typed account that does not hold a record of that type
    | ConstraintHasOne        // `has_one` field disagrees with the presented key
    | ConstraintSeeds         // `seeds` + stored bump do not give the presented address
    | ConstraintTokenMint     // `token::mint`
    | ConstraintTokenOwner    // `token::authority`
    | ConstraintAssociated    // `associated_token::mint` / `associated_token::authority`

  /** Failures of the token transfer primitive. */
  datatype TokenError =
    | InvalidAccount          // source or destination holds no balance entry
    | InsufficientFunds
    | MintMismatch
    | OwnerMismatch           // the authority is not the source account's owner
    | MissingSignature        // the authority did not sign, by key or by seeds

  /** Failures the runtime raises on a call from the program into another
      program, before the callee runs. */
  datatype RuntimeError =
    | PrivilegeEscalation     // an account passed as a signer that neither signed nor is signed for

  datatype Error =
    | Program(code: ErrorCode)
    | Constraint(constraint: ConstraintError)
    | Token(token: TokenError)
    | Runtime(fault: RuntimeError)

  /** The outcome of one instruction; an error commits nothing. */
  datatype Result<+T> = Ok(value: T) | Err(error: Error) {

    predicate IsFailure() {
      Err?
    }

    function PropagateFailure<U>(): Result<U>
      requires Err?
    {
      Err(error)
    }

    function Extract(): T
      requires Ok?
    {
      value
    }
  }
}
