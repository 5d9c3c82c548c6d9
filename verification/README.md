# marginfi: a verified model

marginfi is a lending protocol: an on-chain program keeps banks of deposits and
loans, an incentive program tops up deposits from a reward vault, and an
off-chain pipeline indexes the program's transactions.  This project models the
accounting core of all three and proves what it promises about them.

* `Results`, `FixedPoint`: outcomes, and the I80F48 number as an unbounded integer
  of 2^-48 units ("ulps") with explicit range checks.  Products round down,
  quotients towards zero.
* `Interest`, `AccrualBounds`, `Valuation`, `Banks`: rates, accrual, values, banks.
* `Positions`, `Emissions`, `RoundTrips`: one balance in one bank.
* `Prices`, `Risk`: oracle prices, health checks.
* `Ledger`, `Instructions`: all banks and accounts, and the instructions as
  functions from market to market or error.
* `Effects`, `Conservation`, `Runs`, `Reachability`, `Drift`: what instructions do
  to the exact net position of a bank, then every run and every reachable state.
* `Accounts`: the program's objects updated in place, proved equal to the
  functions on values.
* `Coverage`, `Safeguards`: health without rounding, and what acceptance says about the
  accounts concerned.
* `Claims`, `Limits`, `Settings`: what each user has, limits, flags and configurations:
  instructions change what they are for and nothing else.
* `Liquidations`, `Scenarios`, `Cycles`: how weights decide what a liquidation does to
  health, and runs that show what is accepted and where the program's promises end.
* `TransferFees`, `Campaigns`: transfer fees and the incentive program.
* `SlotBuffer`, `LogTree`: the indexer's buffer and the log parser.

Exact quantities are in units of 2^-96: `Net(pool)` is the vault less fees, less
asset shares times their value, plus liability shares times theirs.  Theorems
about runs speak of actions that are `Permitted`: amounts are 64-bit and transfer
fees at most 100%, as the token program guarantees, and the loss of an accepted
bankruptcy is borne by deposits.  The last is exactly what is needed
(`Conservation.BankruptcyKeepsBooksIff`): the code accepts larger losses, and
`Scenarios.DepositsBelowZero` reaches one.  A bank whose debts are within its
deposits after interest is charged is safe (`Conservation.SolventBankCovers`).
Conservation asks further that no origination fee is dropped by a saturating
counter, again exactly what is needed (`Conservation.FeeConservesIff`).  It always
holds in ordinary markets (`Runs.OrdinaryRunBooks`), but not under every fee
setting that the code accepts (`Scenarios.FeeIsDropped`).

Where code and comments disagree the code is followed: an origination fee is
split with the program even if program fees are disabled, Switchboard pull
deviations are not scaled by the feed's precision, and liquidating does not always
improve health (`Liquidations.TooCloseIsRefused`, `Scenarios.LiquidatingHurts`).

`dafny verify dfyconfig.toml` checks the whole project.

## Model

| member | source | states |
|---|---|---|
| `Runs.ProcessBecomes` | programs/marginfi/src/state/marginfi_account.rs:951-1203 | every accepted instruction of the 21 modelled, from any state in which the books agree: the books agree afterwards and, unless a borrow's fee overflows a counter, the vault less fees and net claims of every bank moves by no more than the bound of that instruction (less than asset plus liability share value in ulps for a deposit, repayment, withdrawal or borrow, less than one ulp for withdraw-all and repay-all, plus the accrual's own rounding), other banks do not move, new banks start at zero |
| `Runs.StepKeeps` | programs/marginfi/src/state/marginfi_account.rs:858-1203 | the same for one step, accepted or not, under the same condition for the net position alone, with liability share values never falling, asset share values falling in bankruptcies only, and each close dropping shares worth less than 0.0001 tokens and less than one emission token |
| `Runs.RunConserves` | programs/marginfi/src/state/marginfi_account.rs:951-1203 | over every run of any number of accounts and banks in which fees are booked in full, the net position of a bank (vault, less fees, less total assets, plus total liabilities, exact) drifts by at most the sum of the bounds of its steps, both ways |
| `Runs.RunKeepsInv` | programs/marginfi/src/state/marginfi_account.rs:858-1203 | over every run the books stay in agreement with the balances, whatever the fee settings and however full the fee counters |
| `Runs.OrdinaryRunBooks` | programs/marginfi/src/instructions/marginfi_account/borrow.rs:25-171 | a run whose borrows meet such markets books all fees in full, so the conservation theorems apply to it |
| `Drift.DriftIsLinear` | programs/marginfi/src/state/marginfi_account.rs:951-1203 | in every run without bankruptcies whose fees are booked in full, beside the rounding of interest, the net position of a bank drifts by at most one ulp of an asset share and one of a liability share, at their final values, per instruction |
| `Drift.ChargedFirst` | programs/marginfi/src/state/marginfi_group.rs:718-826 | charging interest is idempotent: every instruction that charges it, a liquidation with its two banks included, gives the same result on a market where it has been charged already |
| `Reachability.ReachableInv` | programs/marginfi/src/state/marginfi_account.rs:858-1203 | the invariant holds in every state reachable from the empty market |
| `Reachability.SharesAgree` | programs/marginfi/src/state/marginfi_account.rs:804-819 | in every reachable state a bank's total shares on each side are the sum over all active balances plus the recorded dust of closes, and the one-side-only assertion of `get_side` cannot fire for any balance |
| `Reachability.EmissionsConserved` | programs/marginfi/src/state/marginfi_account.rs:1206-1291 | in every reachable state emissions funded equal emissions paid, outstanding, forfeited at closes and remaining; remaining is not negative and no more is paid than was funded |
| `Reachability.DepositsWithinBank` | programs/marginfi/src/state/marginfi_group.rs:544-566 | in every reachable state the users' withdrawable amounts, each rounded down on its own, sum to no more than the bank's rounded total |
| `Reachability.WithdrawalsAreCovered` | programs/marginfi/src/state/marginfi_account.rs:951-1043 | after every run whose fees are booked in full, all withdrawable amounts plus all booked fees of a bank are covered by its vault and what borrowers owe, up to the summed rounding of the run |
| `Reachability.ShareValuesGrow` | programs/marginfi/src/state/marginfi_group.rs:718-826 | along every run the liability share value never falls, and the asset share value never falls in runs without bankruptcies |
| `Reachability.AcceptedIsNotBankrupt` | programs/marginfi/src/instructions/marginfi_group/handle_bankruptcy.rs:28-174 | an account that has just borrowed, withdrawn, ended a flashloan or liquidated another cannot be declared bankrupt at the same prices, whatever the insurance and the time |
| `Safeguards.AcceptedIsCovered` | programs/marginfi/src/state/marginfi_account.rs:462-534 | whoever has just borrowed, withdrawn, ended a flashloan or liquidated another, outside of a flashloan, owes no more at initial weights and averaged high prices than it owns at initial weights and averaged low prices, exactly, up to one stated rounding per balance |
| `Safeguards.EndIsCovered` | programs/marginfi/src/instructions/marginfi_account/flashloan.rs:123-139 | an accepted end of a flashloan clears the flag, changes nothing else and leaves an account that is so covered; one that is not covered is refused, whatever its flag |
| `Safeguards.StartIsFlagged` | programs/marginfi/src/instructions/marginfi_account/flashloan.rs:13-121 | an accepted start sets the flag of an enabled account that is in no flashloan, and changes nothing else |
| `Safeguards.FlashloanIsSettled` | programs/marginfi/src/instructions/marginfi_account/flashloan.rs:123-139 | in every run, an account that was in a flashloan and is no longer was covered when an end was accepted in between |
| `Safeguards.LiquidationIsCalledFor` | programs/marginfi/src/instructions/marginfi_account/liquidate.rs:78-390 | an accepted liquidation is of an account in no flashloan whose exact worth at maintenance weights and spot prices is not positive, up to rounding; its health rises and stays at or below zero; collateral and debt change hands between the two accounts alone, as quoted, and the insurance fee leaves the vault |
| `Safeguards.BankruptcyIsCalledFor` | programs/marginfi/src/instructions/marginfi_group/handle_bankruptcy.rs:28-174 | an accepted bankruptcy is of an account in no flashloan that exactly owes more than it owns without weights, owns less than 0.1 and owes more than 0.0001, up to rounding; its debt to the bank is gone but for an ulp, insurance has paid first, and it is disabled |
| `Settings.BankruptIsShutForGood` | programs/marginfi/src/state/marginfi_account.rs:42-48 | after an account is disabled, every later state of every run refuses its owner deposits, repayments, withdrawals, borrows, closes, emissions and flashloans |
| `Settings.PausedBankIsStill` | programs/marginfi/src/state/marginfi_group.rs:950-970 | no deposit, repayment, withdrawal, borrow, liquidation or write-off is accepted by a paused bank |
| `Settings.SettingsMoveOnlySo` | programs/marginfi/src/instructions/marginfi_group/configure_bank.rs:14-211 | every accepted instruction changes exactly the flags, configurations, program fees and emission settings that it is meant to, as given, and no others; new configurations are valid, and emissions are set up once before they are updated |
| `Liquidations.LiquidationMovesHealth` | programs/marginfi/src/instructions/marginfi_account/liquidate.rs:78-390 | the swap of a liquidation, before any check of its result, changes the maintenance health of the account by (95% of the debt's weight less the collateral's weight) times the worth of the collateral, between two explicit roundings, for any number of other balances, and also where the amount exceeds the collateral by the tolerated 0.0001 |
| `Liquidations.ImprovesByWeights` | programs/marginfi/src/state/marginfi_account.rs:592-647 | if that is more than rounding, health improves, and the check after the swap fails only for a liquidation that makes the account healthy |
| `Liquidations.FallsByWeights` | programs/marginfi/src/state/marginfi_account.rs:592-647 | if it is negative by more than rounding, the check after the swap fails, and health has fallen wherever a share of the debt is left |
| `Liquidations.RefusedByWeights` | programs/marginfi/src/state/marginfi_account.rs:592-647 | then, interest charged first, every successful swap fails that check and lowers health wherever debt is left, and the program refuses the liquidation, whoever asks for it |
| `Liquidations.TooCloseIsValid` | programs/marginfi/src/state/marginfi_group.rs:1366-1394 | validation accepts maintenance weights of 99% for collateral and 101% for debt, which 95% of the latter does not make up for |
| `Liquidations.TooCloseIsRefused` | programs/marginfi/src/instructions/marginfi_account/liquidate.rs:58-66 | at weights so close, in any market with prices, decimals and share values in stated ranges, liquidating lowers health wherever debt is left and is always refused, so a haircut on collateral and a markup on debt do not by themselves make liquidating improve health |
| `Scenarios.LiquidatingHurts` | programs/marginfi/src/instructions/marginfi_account/liquidate.rs:78-390 | in a reachable market with weights of 99% and 101% an account has negative health and, for every amount of its collateral, the lender's swap succeeds, leaves health lower than before and is refused as an illegal liquidation |
| `Scenarios.OutOfReach` | programs/marginfi/src/instructions/marginfi_account/liquidate.rs:78-390 | in that market the account passes the check before a liquidation, and every liquidation of it is refused: any liquidator, any pair of banks, any amount |
| `Scenarios.LiquidatingHelps` | programs/marginfi/src/instructions/marginfi_account/liquidate.rs:78-390 | in a reachable market with weights of 75% and 125%, an account short by 75 is liquidated by every amount up to 19 tokens: each is accepted and raises its health without making it positive |
| `Scenarios.FirstDeposit` | programs/marginfi/src/instructions/marginfi_account/deposit.rs:24-99 | for every valid configuration and every amount that the deposit limit allows, adding a bank, creating an account and depositing succeed, and the vault and the shares issued are exactly the amount |
| `Cycles.EverythingComesBack` | programs/marginfi/src/instructions/marginfi_account/repay.rs:23-111 | for every deposit, collateral and loan, repaying any part and then all of the loan and withdrawing any part and then all of the collateral and the deposit is accepted step by step and leaves vaults, books and accounts as if nothing had happened |
| `Cycles.EndDecides` | programs/marginfi/src/instructions/marginfi_account/flashloan.rs:123-139 | ending a flashloan after any loan against any collateral is accepted, with nothing but the flag changed, if the weighted collateral covers the weighted debt, and rejected by the risk engine otherwise |
| `Scenarios.DepositsBelowZero` | programs/marginfi/src/instructions/marginfi_group/handle_bankruptcy.rs:28-174 | a reachable market, eight instructions from the empty one, in which a year later an accepted bankruptcy leaves deposits worth less than nothing |
| `Scenarios.FeeIsDropped` | programs/marginfi/src/instructions/marginfi_account/borrow.rs:130-163 | a reachable market, under a program fee rate of the least value, in which an accepted borrow owes one token of fee that is booked nowhere: the net position rises by a token and an ulp |
| `Runs.LiquidationBecomes` | programs/marginfi/src/instructions/marginfi_account/liquidate.rs:78-390 | both banks of a liquidation keep their net positions up to accrual and share rounding, all other banks are unchanged, and the books agree |
| `Runs.BankruptcyBecomes` | programs/marginfi/src/instructions/marginfi_group/handle_bankruptcy.rs:28-174 | settling a bankrupt account costs the bank nothing but accrual rounding when deposits bear the loss, and the books agree; for when they do not, see `Conservation.BankruptcyKeepsBooksIff` |
| `Conservation.BankruptcyKeepsBooksIff` | programs/marginfi/src/instructions/marginfi_group/handle_bankruptcy.rs:28-174 | an accepted settlement of bad debt keeps the books in order if and only if deposits bear the loss, and otherwise turns the value of deposits negative |
| `Conservation.DepositEffect` | programs/marginfi/src/instructions/marginfi_account/deposit.rs:24-99 | with any transfer fee, a deposit keeps the books in agreement and raises the net position by less than one ulp of shares on each side, apart from the accrual's rounding |
| `Conservation.RepayEffect` | programs/marginfi/src/instructions/marginfi_account/repay.rs:23-111 | a repayment keeps the books in agreement and moves the net position within the same bound |
| `Conservation.TakeOutEffect` | programs/marginfi/src/instructions/marginfi_account/withdraw.rs:24-127 | a withdrawal keeps the books in agreement and lowers the net position by less than one ulp of shares on each side, apart from the accrual's rounding |
| `Conservation.TakeAllOutEffect` | programs/marginfi/src/instructions/marginfi_account/withdraw.rs:24-127 | withdraw-all moves the net position by less than one ulp and drops only dust |
| `Conservation.RepayAllEffect` | programs/marginfi/src/instructions/marginfi_account/repay.rs:23-111 | repay-all moves the net position by less than one ulp and drops only dust |
| `Conservation.LendOutEffect` | programs/marginfi/src/instructions/marginfi_account/borrow.rs:25-171 | a borrow keeps the books in agreement whatever the fee, and if saturation drops nothing of its fee the net position falls by less than one ulp of shares on each side, apart from the accrual's rounding |
| `Conservation.FeeConservesIff` | programs/marginfi/src/instructions/marginfi_account/borrow.rs:130-163 | booking an origination fee conserves if and only if saturating the two counters drops nothing of it, for any fee settings |
| `Conservation.FeeIsBookedInFull` | programs/marginfi/src/instructions/marginfi_account/borrow.rs:130-163 | for a program fee rate between 0 and 1 that is so if and only if neither counter overflows |
| `Conservation.OrdinaryBorrowBooks` | programs/marginfi/src/instructions/marginfi_account/borrow.rs:130-163 | where the program takes a fraction of fees, no fee counter is negative, the vault holds a 64-bit amount and the bank is not out of pocket by a quarter of the range, every borrow that the bank can pay books its fee in full |
| `Conservation.CloseBalanceEffect` | programs/marginfi/src/instructions/marginfi_account/close_balance.rs:12-44 | closing an empty balance moves nothing but recorded dust |
| `Conservation.CollectFeesEffect` | programs/marginfi/src/instructions/marginfi_group/collect_bank_fees.rs:20-178 | collecting fees pays out of the vault exactly what it takes off the three fee counters, and never more than the vault holds |
| `Conservation.FeesPaidInOrder` | programs/marginfi/src/instructions/marginfi_group/collect_bank_fees.rs:20-178 | fees are paid in whole tokens to insurance first, then the group, then the program: whoever is still owed a whole token has had all that was left of the vault |
| `Conservation.WithdrawEmissionsEffect` | programs/marginfi/src/instructions/marginfi_account/emissions.rs:17-65 | withdrawing emissions takes whole tokens off the balance, keeps the books in agreement and leaves the net position alone |
| `Conservation.SettleEmissionsEffect` | programs/marginfi/src/instructions/marginfi_account/emissions.rs:121-136 | settling emissions moves them from bank to balance only |
| `Conservation.SetupEmissionsEffect` | programs/marginfi/src/instructions/marginfi_group/configure_bank.rs:55-96 | setting up emissions funds exactly what is recorded as remaining |
| `Conservation.UpdateEmissionsEffect` | programs/marginfi/src/instructions/marginfi_group/configure_bank.rs:149-211 | adding emissions funds exactly what is added to those remaining |
| `Conservation.AddBankKeepsInv` | programs/marginfi/src/instructions/marginfi_group/add_pool.rs:21-83 | a new bank starts with books that agree, as nobody can hold a balance in it |
| `Conservation.WriteOffEffect` | programs/marginfi/src/instructions/marginfi_group/handle_bankruptcy.rs:28-174 | covering a debt from insurance, socializing the rest and repaying the debt, when deposits bear it, never lower the net position, and raise it by at most a rounded-up token and the rounding of shares |
| `Conservation.InsurancePaysFirst` | programs/marginfi/src/instructions/marginfi_group/handle_bankruptcy.rs:82-150 | an accepted write-off raises the vault by the least whole number of tokens not below the debt or all that can arrive of the insurance vault, whichever is less; depositors lose only the rounding of one division if that covers the debt, and the remainder up to that rounding if not |
| `Conservation.SolventBankCovers` | programs/marginfi/src/instructions/marginfi_group/handle_bankruptcy.rs:28-174 | a bank that passes the utilization check once interest is charged can bear any bad debt of any account |
| `Conservation.InsuranceFeeAssertionHolds` | programs/marginfi/src/instructions/marginfi_account/liquidate.rs:78-390 | whenever both pools, both prices and both quotes are available the amounts are: the assertion on the insurance fee cannot fire |
| `Conservation.QuoteIs` | programs/marginfi/src/instructions/marginfi_account/liquidate.rs:78-390 | the debt quoted for collateral is its discounted exact worth at the two prices and decimals, rounded down, within one ulp of debt, of value and of price |
| `Conservation.LiquidationDiscounts` | programs/marginfi/src/instructions/marginfi_account/liquidate.rs:78-390 | the liquidator takes over debt worth 97.5% of the collateral and the account is relieved of 95%, at the low spot price of the collateral and the high one of the debt, both rounded down within explicit bounds |
| `Conservation.SwapPositionsEffect` | programs/marginfi/src/instructions/marginfi_account/liquidate.rs:78-390 | the four balance changes and the insurance fee of a liquidation conserve the net position of both banks up to share rounding |
| `Claims.DepositSettles` | programs/marginfi/src/instructions/marginfi_account/deposit.rs:24-99 | after interest, a deposit adds exactly its amount to the vault and that amount, less than one ulp of each kind of share short, to the depositor's own claim; no other claim moves; paused and reduce-only banks and the deposit limit are respected |
| `Claims.RepaySettles` | programs/marginfi/src/instructions/marginfi_account/repay.rs:23-111 | the same for a repayment, which deposits no more than dust |
| `Claims.WithdrawSettles` | programs/marginfi/src/instructions/marginfi_account/withdraw.rs:24-127 | a withdrawal takes from the vault and from the owner's own claim the least amount that delivers what was asked for, borrows no more than dust, and leaves debts within deposits; no other claim moves |
| `Claims.BorrowSettles` | programs/marginfi/src/instructions/marginfi_account/borrow.rs:25-171 | a borrow takes the least amount that delivers what was asked for from the vault, and that plus the configured origination fee from the borrower's own claim; the fee less the program's part is booked to the group, that part to the program, unless a counter overflows; borrow limit and utilization are respected |
| `Claims.AllSettles` | programs/marginfi/src/state/marginfi_account.rs:951-1043 | withdraw-all and repay-all leave the account nothing in the bank; the vault loses the whole tokens of the deposit or gains the debt rounded up, and insurance is credited with the difference; no other claim moves |
| `Claims.CloseClears` | programs/marginfi/src/state/marginfi_account.rs:1045-1070 | closing a balance, of which both sides are worth less than 0.0001, leaves the account nothing in the bank and changes neither vault nor fees nor any other claim |
| `Claims.SettleEmissionsClaims` | programs/marginfi/src/instructions/marginfi_account/emissions.rs:121-136 | settling credits the account with exactly what its balance may claim and debits the bank; shares, vault, fees and everybody else stay |
| `Claims.WithdrawEmissionsPays` | programs/marginfi/src/instructions/marginfi_account/emissions.rs:17-65 | withdrawing emissions does the same, pays out the whole tokens and leaves less than one |
| `Claims.SwapPositionsSwaps` | programs/marginfi/src/instructions/marginfi_account/liquidate.rs:78-390 | the swap of a liquidation moves the four claims involved by the collateral, the debt taken over and the debt relieved, each within the rounding of one transfer, and no other claim; the account liquidated borrows no collateral beyond dust |
| `Limits.LiquidationIgnoresLimits` | programs/marginfi/src/state/marginfi_account.rs:931-949 | the swap of a liquidation succeeds or fails all the same, with the same outcome, whatever the deposit limit of the collateral's bank and the borrow limit of the debt's bank |
| `Effects.IncreaseEffect` | programs/marginfi/src/state/marginfi_account.rs:1074-1137 | paying in books no more than was paid, and less than one ulp of shares on each side below it, with emissions untouched otherwise |
| `Effects.DecreaseEffect` | programs/marginfi/src/state/marginfi_account.rs:1139-1204 | taking out costs the position no more than was taken, and less than one ulp of shares on each side below it |
| `Positions.RaiseKeepsSound` | programs/marginfi/src/state/marginfi_account.rs:1089-1134 | paying in keeps shares non-negative and one side empty; crossing from debt to deposit leaves at most one ulp of debt, for every positive share value |
| `Positions.LowerKeepsSound` | programs/marginfi/src/state/marginfi_account.rs:1154-1198 | taking out keeps shares non-negative and one side empty; crossing from deposit to debt leaves less than one share, and at most one ulp if a share is worth a token or more |
| `Positions.RaiseRespects` | programs/marginfi/src/state/marginfi_account.rs:1074-1137 | a paused bank takes nothing, repayments and reduce-only banks gain only dust of deposits, pure deposits repay only dust, and deposits stay below the limit |
| `Positions.LowerRespects` | programs/marginfi/src/state/marginfi_account.rs:1139-1204 | the same for taking out, and a bank is never left with more debts than deposits |
| `Positions.TakeAllIs` | programs/marginfi/src/state/marginfi_account.rs:951-998 | withdraw-all pays the whole tokens of the deposit, books the fraction to insurance and gives up less than one ulp of value |
| `Positions.PayAllIs` | programs/marginfi/src/state/marginfi_account.rs:1000-1043 | repay-all charges the debt rounded up to a whole token and books the excess to insurance |
| `Positions.ClaimMoves` | programs/marginfi/src/state/marginfi_account.rs:1206-1273 | claiming moves between zero and all remaining emissions from the bank to the balance, and changes nothing else |
| `Positions.PayEmissionsMoves` | programs/marginfi/src/state/marginfi_account.rs:1276-1291 | settling pays out whole tokens and keeps a fraction of less than one token outstanding |
| `Emissions.ClaimIs` | programs/marginfi/src/state/marginfi_account.rs:1206-1273 | a claim yields the closed formula for the seconds since the last one, or what remains if that is less |
| `Emissions.SideEarns` | programs/marginfi/src/state/marginfi_account.rs:1206-1273 | a deposit earns if lending is rewarded and a debt if borrowing is, by its amount, the rate and the time since it last claimed, within explicit roundings and up to what remains; time before the start of emissions does not count; anything else earns nothing |
| `Emissions.SplittingNeverGains` | programs/marginfi/src/state/marginfi_account.rs:1206-1273 | splitting a period into any number of claims never yields more than one claim, and at most one yearly rate in ulps less per extra claim, under the cap too; what is not claimed stays with the bank |
| `Emissions.ClaimsYield` | programs/marginfi/src/state/marginfi_account.rs:1356-1376 | claims at any sequence of times yield what the closed formula gives for the whole period, capped, up to one rate per extra claim |
| `RoundTrips.DepositThenWithdrawAll` | programs/marginfi/src/state/marginfi_account.rs:951-998 | a deposit of d tokens withdrawn at once comes back whole if and only if d is a whole number of shares, and never more than one token short for share values up to 2^48; the fraction goes to insurance and the bank is otherwise as before |
| `RoundTrips.BorrowThenRepayAll` | programs/marginfi/src/state/marginfi_account.rs:1000-1043 | a borrow of d tokens repaid at once costs at most d, and exactly d for share values below 2^48 - 1; the bank is otherwise as before |
| `Ledger.SlotForFits` | programs/marginfi/src/state/marginfi_account.rs:858-899 | the slot found or created never gives an account two active balances for one bank |
| `Ledger.HoldingIsBooked` | programs/marginfi/src/state/marginfi_account.rs:858-899 | no single balance holds more than its bank has booked |
| `Interest.CurveMonotone` | programs/marginfi/src/state/marginfi_group.rs:351-364 | the rounded rate curve never falls, across the kink too |
| `Interest.CurveAnchors` | programs/marginfi/src/state/marginfi_group.rs:351-364 | the curve is exactly 0 at 0, the plateau rate at the optimal utilization and the maximum rate at 1 |
| `Interest.CurveIsLinear` | programs/marginfi/src/state/marginfi_group.rs:351-364 | between the anchors it is the two straight lines, rounded down by a bounded amount |
| `Interest.CurveDefined` | programs/marginfi/src/state/marginfi_group.rs:239-253 | a validated configuration makes the curve computable and between 0 and the maximum rate for every utilization up to 1 |
| `Interest.BorrowRateIsBaseAndFees` | programs/marginfi/src/state/marginfi_group.rs:301-343 | the borrowing rate is the base rate plus the three fee rates plus zero, one or two ulps |
| `Interest.CollectorsHaveTheirRates` | programs/marginfi/src/state/marginfi_group.rs:301-343 | the group, insurance and program rates are each the base rate times the rate configured for that collector, rounded down, plus its own fixed rate; the program's is zero while program fees are disabled |
| `AccrualBounds.ExactAccrualBalances` | programs/marginfi/src/state/marginfi_group.rs:1027-1130 | without rounding, borrowers owe exactly what lenders and fee collectors gain |
| `AccrualBounds.GapAtMost` | programs/marginfi/src/state/marginfi_group.rs:1027-1130 | in fixed point, assets plus fees outgrow liabilities by less than (liabilities + liability shares + base rate times years) ulps when liabilities do not exceed assets |
| `AccrualBounds.GapAtLeast` | programs/marginfi/src/state/marginfi_group.rs:1027-1130 | and fall behind them by no more than a stated number of ulps |
| `Banks.AccrualBalances` | programs/marginfi/src/state/marginfi_group.rs:718-826 | the change of a bank's net claims by one accrual lies between these two bounds for every healthy bank, time and fee setting |
| `Banks.CollectorsAreCredited` | programs/marginfi/src/state/marginfi_group.rs:718-826 | an accrual raises each of the three fee counters by the debts times that collector's own rate times the time passed, within explicit roundings |
| `Banks.AccrualShape` | programs/marginfi/src/state/marginfi_group.rs:718-826 | an accrual leaves share counts alone, lowers no share value and no fee counter |
| `Banks.SocializedLossBounds` | programs/marginfi/src/state/marginfi_group.rs:933-948 | a loss that deposits can bear takes at least the loss from depositors and less than (total shares + 1) ulps more |
| `Banks.SocializedLossSign` | programs/marginfi/src/state/marginfi_group.rs:933-948 | the share value after a loss stays non-negative, or positive, if and only if the loss exceeds deposits by less than an ulp per share, or not at all: nothing in the code stops a larger loss |
| `Accounts.Bank.ChangeAssetShares` | programs/marginfi/src/state/marginfi_group.rs:568-590 | in-place update equals the value function, error cases and deposit limit included |
| `Accounts.Bank.ChangeLiabilityShares` | programs/marginfi/src/state/marginfi_group.rs:633-657 | in-place update equals the value function, error cases and borrow limit included |
| `Accounts.Bank.AccrueInterest` | programs/marginfi/src/state/marginfi_group.rs:718-826 | the step-by-step accrual equals the value function that the balance theorems are about |
| `Accounts.Bank.SocializeLoss` | programs/marginfi/src/state/marginfi_group.rs:933-948 | in-place update equals the value function |
| `Accounts.Bank.constructor` | programs/marginfi/src/state/marginfi_group.rs:499-542 | a new bank has share values of one and nothing else |
| `Accounts.LendingAccount.GetBalance` | programs/marginfi/src/state/marginfi_account.rs:731-735 | the scan finds the first active balance of the bank, and none only if there is none |
| `Accounts.LendingAccount.GetFirstEmptyBalance` | programs/marginfi/src/state/marginfi_account.rs:724-726 | the scan finds the first slot that is not active |
| `Accounts.LendingAccount.FindOrCreate` | programs/marginfi/src/state/marginfi_account.rs:858-899 | the slot returned and the array left behind are those of the specification; no other slot changes |
| `Accounts.BankAccountWrapper.ClaimEmissions` | programs/marginfi/src/state/marginfi_account.rs:1206-1273 | in-place claim equals the value function; no other balance of the account changes |
| `Accounts.BankAccountWrapper.ChangeAssetShares` | programs/marginfi/src/state/marginfi_account.rs:775-782 | adds to the asset shares of one slot, or fails on overflow; no other slot changes |
| `Accounts.BankAccountWrapper.ChangeLiabilityShares` | programs/marginfi/src/state/marginfi_account.rs:784-791 | the same for liability shares |
| `Accounts.BankAccountWrapper.CloseSlot` | programs/marginfi/src/state/marginfi_account.rs:793-802 | empties the slot unless a whole emission token is outstanding |
| `Accounts.BankAccountWrapper.Raise` | programs/marginfi/src/state/marginfi_account.rs:1089-1134 | the four interleaved share updates of paying in equal the value function |
| `Accounts.BankAccountWrapper.Lower` | programs/marginfi/src/state/marginfi_account.rs:1154-1198 | the four interleaved share updates of taking out, and the utilization check, equal the value function |
| `Accounts.BankAccountWrapper.SettleEmissionsAndGetTransferAmount` | programs/marginfi/src/state/marginfi_account.rs:1276-1291 | in-place settlement equals the value function |
| `Accounts.BankAccountWrapper.IncreaseBalanceInternal` | programs/marginfi/src/state/marginfi_account.rs:1074-1137 | the interleaved updates of balance and bank equal the value function that conservation is proved for; no other balance changes |
| `Accounts.BankAccountWrapper.DecreaseBalanceInternal` | programs/marginfi/src/state/marginfi_account.rs:1139-1204 | the same for taking out |
| `Accounts.BankAccountWrapper.WithdrawAll` | programs/marginfi/src/state/marginfi_account.rs:951-998 | the same for withdraw-all, with the amount paid |
| `Accounts.BankAccountWrapper.RepayAll` | programs/marginfi/src/state/marginfi_account.rs:1000-1043 | the same for repay-all, with the amount due |
| `Accounts.BankAccountWrapper.CloseBalance` | programs/marginfi/src/state/marginfi_account.rs:1045-1070 | the same for closing a balance |
| `Risk.GetAccountHealthComponents` | programs/marginfi/src/state/marginfi_account.rs:477-500 | the accumulating loop computes the weighted sums of assets and liabilities, or the first error; for what these sums are, see `Coverage.TotalsRound` |
| `Coverage.ValuesRound` | programs/marginfi/src/state/marginfi_account.rs:229-329 | under each requirement a balance counts for its shares times the share value, the weight configured for that requirement and side (one for equity) and the price for it (averaged for initial and equity, spot for maintenance; low for assets, high for debts), rounded down within explicit bounds; isolated collateral counts for nothing; without a price a debt is an error, and so is collateral, except that before borrowing it counts for nothing |
| `Coverage.TotalsRound` | programs/marginfi/src/state/marginfi_account.rs:477-500 | the totals of an account are the exact worth of what it owns and owes, rounded down once per balance |
| `Coverage.PassingIsCovered` | programs/marginfi/src/state/marginfi_account.rs:514-534 | an account that passes the initial check exactly owes no more than it owns up to rounding, and one that owns enough, rounding included, passes |
| `Coverage.LiquidatableIsShort` | programs/marginfi/src/state/marginfi_account.rs:536-580 | an account that may be liquidated has the debt in question and exactly owns no more than it owes at maintenance, and the health returned is the exact difference up to rounding |
| `Coverage.BankruptIsUnderwater` | programs/marginfi/src/state/marginfi_account.rs:649-674 | a bankrupt account exactly owes more than it owns, owns less than 0.1 and owes more than 0.0001, up to rounding |
| `Coverage.InitWeightIs` | programs/marginfi/src/state/marginfi_group.rs:592-631 | the initial weight of collateral is the configured one while all deposits are worth no more than the limit, and beyond shrinks so that together they count for the limit times the weight, within explicit roundings |
| `Coverage.InitialWeightsDecide` | programs/marginfi/src/state/marginfi_group.rs:1348-1362 | for any debt weights with the initial above the maintenance one, an account that the initial check refuses though its maintenance health is not negative |
| `Risk.InitIsStricter` | programs/marginfi/src/state/marginfi_account.rs:258-329 | where no averaged price is better than the spot price for the account, the initial requirement counts assets for no more and liabilities for no less than either other requirement, for any number of balances, with init-limit discounts, isolated banks and stale oracles |
| `Risk.InitHealthyIsNotBankrupt` | programs/marginfi/src/state/marginfi_account.rs:649-674 | passing the initial check rules out bankruptcy in the same state, flashloan or not |
| `Risk.InitHealthyIsNotLiquidatable` | programs/marginfi/src/state/marginfi_account.rs:536-580 | with prices so ordered, passing the initial check gives a maintenance health of at least zero, so liquidation can start only at exactly zero |
| `Risk.IsolatedStandsAlone` | programs/marginfi/src/state/marginfi_account.rs:676-705 | in an account that passes the initial check a debt in an isolated bank is the only debt |
| `Risk.RiskTiersIff` | programs/marginfi/src/state/marginfi_account.rs:676-705 | the check of risk tiers refuses exactly the accounts with a debt in an isolated bank and another debt |
| `Risk.SwitchboardPricesAgree` | programs/marginfi/src/state/price.rs:397-420 | both Switchboard adapters always have their prices in order |
| `Risk.LowerSpotLiquidates` | programs/marginfi/src/state/price.rs:280-305 | for every feed whose spot price for assets is below the averaged one, an account in banks that hold its balances passes the initial check and can be liquidated below zero |
| `Risk.HigherSpotLiquidates` | programs/marginfi/src/state/price.rs:280-305 | likewise for every feed whose spot price for liabilities is above the averaged one |
| `Prices.BiasIsBounded` | programs/marginfi/src/state/price.rs:236-268 | the confidence bias is symmetric, at most 5% of the price, and never makes a price negative |
| `Prices.FeedIsReadFrom` | programs/marginfi/src/state/price.rs:236-305 | an averaged price is read from the average and a spot price from the spot, each with its own confidence; the bias is 2.12 or 1.96 deviations or 5% of the price, whichever is less, rounded down; a Switchboard result needs enough responses unless it slides |
| `Prices.PythIsDecimal` | programs/marginfi/src/state/price.rs:855-872 | a Pyth price is its integer times its power of ten, rounded down by less than one ulp |
| `Prices.SwitchboardIsDecimal` | programs/marginfi/src/state/price.rs:882-912 | a Switchboard decimal is its mantissa over its power of ten, rounded down once, or twice if it has more than 20 decimals |
| `Valuation.ValueBounds` | programs/marginfi/src/state/marginfi_account.rs:362-394 | a weighted value is the exact product of amount, weight and price, rounded down by a bounded amount |
| `Valuation.AmountBounds` | programs/marginfi/src/state/marginfi_account.rs:396-411 | an amount is the exact quotient of value and price, rounded down once |
| `TransferFees.PreFeeIsLeast` | programs/marginfi/src/utils.rs:149-180 | whatever is returned delivers exactly the requested amount after the fee, and no smaller amount does |
| `TransferFees.PreFeeExists` | programs/marginfi/src/utils.rs:149-180 | a value is returned whenever some 64-bit amount delivers the requested one, and it is no larger than that amount |
| `Campaigns.CampaignIsSolvent` | programs/liquidity-incentive-program/src/instructions/end_deposit.rs:76-125 | after every sequence of deposits and ends the reward vault covers the promised rewards of all live deposits, and capacity left plus all ever deposited is the maximum |
| `Campaigns.MaturedDepositEnds` | programs/liquidity-incentive-program/src/instructions/end_deposit.rs:34-125 | in every such state a matured deposit can be ended: no unwrap fails and the vault suffices; the owner gets the larger of what was redeemed and the deposit with its promised yield |
| `Campaigns.MaxRewardIs` | programs/liquidity-incentive-program/src/instructions/end_deposit.rs:83-93 | the reward arithmetic never fails, never promises more than the share of the deposit, and at most one unit and one part in 2^48 of all rewards less |
| `Campaigns.EndsAfterLockup` | programs/liquidity-incentive-program/src/instructions/end_deposit.rs:34-125 | whatever happens between, a deposit ends no earlier than its start plus the lockup as a signed number, only once redeemed, and for no less than was redeemed and, if that is no less than was deposited, than the deposit with its promised yield |
| `Campaigns.LockupIsKept` | programs/liquidity-incentive-program/src/instructions/end_deposit.rs:38-43 | in every run of every campaign no deposit ends before its start plus the lockup if and only if the lockup is below 2^63: longer ones turn negative in the cast |
| `Campaigns.DepositedIsLent` | programs/liquidity-incentive-program/src/instructions/create_deposit.rs:26-131 | over every run no more is deposited than was lent on without a fee, and nothing in a campaign that is not active |
| `Campaigns.Campaign.CreateCampaign` | programs/liquidity-incentive-program/src/instructions/create_campaign.rs:10-45 | promises what arrived in the vault, not what was sent; rejects a maximum of zero |
| `Campaigns.Campaign.CreateDeposit` | programs/liquidity-incentive-program/src/instructions/create_deposit.rs:26-131 | in-place update equals the function that solvency is proved for, with its error cases in order |
| `Campaigns.Campaign.End` | programs/liquidity-incentive-program/src/instructions/end_deposit.rs:34-168 | in-place update equals the function that solvency is proved for, with its error cases in order |
| `SlotBuffer.EveryRun` | observability/indexer/src/commands/index_transactions.rs:196-312 | in every interleaving of updates and drains, slot by slot, what was received is what left, in order, followed by what is queued; each transaction left while a recorded set of reported slots was retained, published from one of them or discarded for being older than all of them; the slots retained are the greatest reported |
| `SlotBuffer.DrainDecides` | observability/indexer/src/commands/index_transactions.rs:275-312 | a drain publishes the whole of every retained slot, discards the whole of every slot older than all of those, and leaves the rest |
| `SlotBuffer.PublishedInOrder` | observability/indexer/src/commands/index_transactions.rs:297-311 | transactions of one drain come out in the order of their slots |
| `SlotBuffer.LateReportIsLost` | observability/indexer/src/commands/index_transactions.rs:279-295 | a transaction is lost or published depending on whether a drain comes before or after its slot's late report |
| `SlotBuffer.Context.ProcessUpdate` | observability/indexer/src/commands/index_transactions.rs:196-259 | every update changes queue and slots as specified, eviction of the oldest slot included; only a transaction update without a transaction is an error |
| `SlotBuffer.Context.DropStale` | observability/indexer/src/commands/index_transactions.rs:280-295 | drops exactly the slots older than the oldest retained one, and nothing if none is retained |
| `SlotBuffer.Context.TakeReady` | observability/indexer/src/commands/index_transactions.rs:297-311 | the ascending loop with its early break publishes and removes exactly the queued slots that are in the set |
| `SlotBuffer.Context.Drain` | observability/indexer/src/commands/index_transactions.rs:275-312 | dropping the stale and taking the ready equals the plain filter by slot membership |
| `LogTree.LogGivesTree` | observability/etl/dataflow-etls/dataflow_etls/transaction_parsing.py:139-181 | for every forest of calls, with body lines of any text, reconciling the printed log gives back the forest, each node with its own instruction and lines in order, if and only if no body line reads as an announcement or truncation and no line below the top level follows one that reads as an end |
| `LogTree.PlainLogGivesTree` | observability/etl/dataflow-etls/dataflow_etls/transaction_parsing.py:139-181 | in particular for plain body lines, and then the depth returns to zero |
| `LogTree.MisreadLineLosesTree` | observability/etl/dataflow-etls/dataflow_etls/transaction_parsing.py:166-169 | a program that logs the word success, or failed, before calling another is enough to lose the tree |
| `LogTree.RecordGivesTree` | observability/etl/dataflow-etls/dataflow_etls/transaction_parsing.py:95-98 | the same from the parts of a transaction record: merging and reconciling together |
| `LogTree.MergeIsPreOrder` | observability/etl/dataflow-etls/dataflow_etls/transaction_parsing.py:107-125 | merging top-level and inner instructions gives the order in which they are called |
| `LogTree.MergeInstructionsAndCpis` | observability/etl/dataflow-etls/dataflow_etls/transaction_parsing.py:107-125 | the loop with its search merges as specified |
| `LogTree.Search` | observability/etl/dataflow-etls/dataflow_etls/transaction_parsing.py:109-113 | finds the first group of an instruction, and none only if there is none |
| `LogTree.ReconcileInstructionLogs` | observability/etl/dataflow-etls/dataflow_etls/transaction_parsing.py:139-174 | the loop over the log computes the parser that the theorems are about, and fails exactly when it does |
| `LogTree.AnnouncementReads` | observability/etl/dataflow-etls/dataflow_etls/transaction_parsing.py:151-153 | the runtime's invoke line is recognised for every program id |
| `LogTree.SuccessReads` | observability/etl/dataflow-etls/dataflow_etls/transaction_parsing.py:166-166 | the runtime's success line is recognised as an end, and not as an announcement, for every program id |
| `LogTree.FailureReads` | observability/etl/dataflow-etls/dataflow_etls/transaction_parsing.py:166-166 | the runtime's failed line is recognised as an end for every program id and reason, unless the reason itself announces a call |

## Left out

- Closing an account: drops less than one share per balance and any outstanding emissions, a side exit from the books.
- Tokens sent straight to a vault, and withdrawals from the fee and insurance vaults: they do not touch the books.
- Token transfers, derived addresses, account loading, constraints, events, authorities: only token amounts are modelled.
- Oracle accounts: owner, staleness and verification checks; a price, a confidence or a load failure is an input.
- Which oracle accounts are passed to a liquidation: one set of feeds serves the health checks and the quotes.
- Flashloan instruction introspection: start and end set and clear the flag; the end checks health.
- Field-by-field setters of configurations: a new configuration replaces the old one and is validated.
- Accounts.Bank.AccrueInterest: says nothing of the state after an error, because a failed transaction is rolled back; likewise the other methods of `Accounts`.
- Liquidations.LiquidationMovesHealth: asks for a share of collateral and a share of debt left over, because the health check counts nothing below one share; likewise `Liquidations.ImprovesByWeights`.
- Reachability.WithdrawalsAreCovered: the rounding of interest is a sum over the steps of a run, not a closed formula, because it depends on the totals at each step.
- Emissions.SplittingNeverGains: asks that the single claim does not overflow, since the parts may succeed where it fails.
- Campaigns.MaturedDepositEnds: transfer fees on the payout are not modelled; the program refuses deposits while there is one.
- Error codes inside a liquidation: a failed withdrawal of collateral keeps its own code instead of the generic one.
- LogTree.LogGivesTree: nodes are values, not objects shared between nested lists, and word characters are the ASCII ones.
- Decoding of instruction data and events from log lines: only the tree of calls is modelled.
- SlotBuffer.EveryRun: each critical section is one step; the two locks of a drain are taken together.
- The near copies of the slot buffer and of the risk engine elsewhere in the repository, the command line, alerting, snapshots, schemas and metrics: they would add easy members only.
