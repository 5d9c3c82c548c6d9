/** Outcomes of operations.  Every fallible operation returns `Ok` or an error; a
    panic, or a Python exception, is an error here.  An on-chain transaction that
    ends in an error leaves no trace. */
module Results {

  datatype Error =
    | MathError
    | Panic
    | TransferFailed
    | BankAssetCapacityExceeded
    | BankLiabilityCapacityExceeded
    | IllegalUtilizationRatio
    | BankPaused
    | BankReduceOnly
    | BankAccountNotFound
    | LendingAccountBalanceSlotsFull
    | LendingAccountBalanceNotFound
    | OperationRepayOnly
    | OperationDepositOnly
    | OperationWithdrawOnly
    | OperationBorrowOnly
    | NoAssetFound
    | NoLiabilityFound
    | IllegalBalanceState
    | CannotCloseOutstandingEmissions
    | EmissionsAlreadySetup
    | EmissionsUpdateError
    | InvalidConfig
    | InvalidPrice
    | InvalidSwitchboardDecimalConversion
    | StaleOracle
    | RiskEngineInitRejected
    | IsolatedAccountIllegalState
    | AccountInFlashloan
    | IllegalFlashloan
    | AccountDisabled
    | AccountNotBankrupt
    | BalanceNotBadDebt
    | IllegalLiquidation
    | NoSuchAccount
    | CampaignNotActive
    | DepositAmountTooLarge
    | DepositNotMature
    | RequireViolated
    | MissingTransaction
    | IndexError

  datatype Result<+T> = Ok(value: T) | Err(error: Error) {

    predicate IsFailure() {
      Err?
    }

    function PropagateFailure<U>(): Result<U>
      requires Err?
    {
      Err(error)
    }

    function Extract(): T
      requires Ok?
    {
      value
    }
  }

  datatype Option<+T> = None | Some(value: T)

  /** `check!(condition, error)`. */
  function Check(condition: bool, error: Error): Result<()> {
    if condition then Ok(()) else Err(error)
  }
}
