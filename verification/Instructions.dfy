/** The program's instructions as transitions of the market.  An instruction
    that fails leaves the market as it was. */
module Instructions {
  import opened Results
  import opened FixedPoint
  import opened Interest
  import opened Valuation
  import opened Banks
  import opened Positions
  import opened TransferFees
  import opened Prices
  import opened Risk
  import opened Ledger

  const LIQUIDATION_LIQUIDATOR_FEE: int := 7_036_874_417_766   // 0.025
  const LIQUIDATION_INSURANCE_FEE: int := 7_036_874_417_766    // 0.025

  // ----------------------------------------------------------- building blocks

  function GetPool(m: Market, pk: nat): Result<Pool> {
    if pk in m.pools then Ok(m.pools[pk]) else Err(BankAccountNotFound)
  }

  function CheckEnabled(m: Market, a: nat): Result<()> {
    if |m.accounts| <= a then Err(NoSuchAccount) else Check(!m.accounts[a].disabled, AccountDisabled)
  }

  function AccrueAt(m: Market, pk: nat, now: nat): Result<Market> {
    var pool :- GetPool(m, pk);
    var bank :- pool.bank.AccrueInterest(now, m.fees);
    Ok(m.PutPool(pk, pool.(bank := bank)))
  }

  /** Find or create account `a`'s balance in bank `pk`. */
  function PositionAt(m: Market, a: nat, pk: nat, create: bool, now: nat): Result<(nat, Position)> {
    var pool :- GetPool(m, pk);
    if |m.accounts| <= a then Err(NoSuchAccount) else
    var (i, b) :- SlotFor(m.accounts[a].balances, pk, create, now);
    Ok((i, Position(pool.bank, b)))
  }

  function PayIn(m: Market, a: nat, pk: nat, delta: int, kind: IncreaseType, create: bool, now: nat): Result<Market> {
    var (i, p) :- PositionAt(m, a, pk, create, now);
    var q :- p.Increase(delta, kind, now);
    Ok(m.Put(pk, m.pools[pk].(bank := q.bank), a, i, q.balance))
  }

  function PayOut(m: Market, a: nat, pk: nat, delta: int, kind: DecreaseType, create: bool, now: nat): Result<Market> {
    var (i, p) :- PositionAt(m, a, pk, create, now);
    var q :- p.Decrease(delta, kind, now);
    Ok(m.Put(pk, m.pools[pk].(bank := q.bank), a, i, q.balance))
  }

  /** The pool when balance `before` closes and leaves bank `after`, with what the
      close drops on record. */
  function ClosedPool(pool: Pool, before: BalanceState, after: BankState, assets: int, liabilities: int): Pool {
    pool.(bank := after,
          droppedAssets := pool.droppedAssets + assets,
          droppedLiabilities := pool.droppedLiabilities + liabilities,
          emissionsForfeited := pool.emissionsForfeited + before.emissionsOutstanding)
  }

  function TakeAllAt(m: Market, a: nat, pk: nat, now: nat): Result<(Market, nat)> {
    var (i, p) :- PositionAt(m, a, pk, false, now);
    var claimed :- p.ClaimEmissions(now);
    var (q, paid) :- claimed.TakeAll();
    var pool := ClosedPool(m.pools[pk], claimed.balance, q.bank, 0, p.balance.liabilityShares);
    Ok((m.Put(pk, pool, a, i, q.balance), paid))
  }

  function PayAllAt(m: Market, a: nat, pk: nat, now: nat): Result<(Market, nat)> {
    var (i, p) :- PositionAt(m, a, pk, false, now);
    var claimed :- p.ClaimEmissions(now);
    var (q, paid) :- claimed.PayAll();
    var pool := ClosedPool(m.pools[pk], claimed.balance, q.bank, p.balance.assetShares, 0);
    Ok((m.Put(pk, pool, a, i, q.balance), paid))
  }

  function CloseAt(m: Market, a: nat, pk: nat, now: nat): Result<Market> {
    var (i, p) :- PositionAt(m, a, pk, false, now);
    var claimed :- p.ClaimEmissions(now);
    var q :- p.CloseBalance(now);
    var pool := ClosedPool(m.pools[pk], claimed.balance, q.bank, p.balance.assetShares, p.balance.liabilityShares);
    Ok(m.Put(pk, pool, a, i, q.balance))
  }

  /** A transfer into (or, if negative, out of) the liquidity vault. */
  function MoveVault(m: Market, pk: nat, tokens: int): Result<Market> {
    var pool :- GetPool(m, pk);
    var _ :- Check(0 <= pool.vault + tokens, TransferFailed);
    Ok(m.PutPool(pk, pool.(vault := pool.vault + tokens)))
  }

  function PreFee(fee: TransferFee, amount: nat): Result<nat> {
    match PreFeeAmount(fee, amount)
    case Some(x) => Ok(x)
    case None => Err(Panic)
  }

  /** Send what it takes for `amount` to arrive in the vault. */
  function FillVault(m: Market, pk: nat, fee: TransferFee, amount: nat): Result<Market> {
    var sent :- PreFee(fee, amount);
    MoveVault(m, pk, Received(fee, sent))
  }

  function DrainVault(m: Market, pk: nat, amount: nat): Result<Market> {
    MoveVault(m, pk, 0 - amount)
  }

  /** The active balances of an account with their banks and prices. */
  function ExposuresOf(m: Market, bs: seq<BalanceState>, feeds: map<nat, Feed>): seq<Exposure> {
    if bs == [] then [] else
    var b := bs[0];
    (if b.active && b.bankPk in m.pools
     then [Exposure(b, m.pools[b.bankPk].bank, if b.bankPk in feeds then Some(feeds[b.bankPk]) else None)]
     else [])
    + ExposuresOf(m, bs[1..], feeds)
  }

  function Exposures(m: Market, a: nat, feeds: map<nat, Feed>): seq<Exposure> {
    if a < |m.accounts| then ExposuresOf(m, m.accounts[a].balances, feeds) else []
  }

  function InFlashloan(m: Market, a: nat): bool {
    a < |m.accounts| && m.accounts[a].inFlashloan
  }

  /** `m`, if account `a` passes the initial health check in it. */
  function IfHealthy(m: Market, a: nat, feeds: map<nat, Feed>): Result<Market> {
    var _ :- CheckInitHealth(InFlashloan(m, a), Exposures(m, a, feeds));
    Ok(m)
  }

  // -------------------------------------------------------------- instructions

  function Deposit(m: Market, a: nat, pk: nat, amount: nat, fee: TransferFee, now: nat): Result<Market> {
    var _ :- CheckEnabled(m, a);
    var m1 :- AccrueAt(m, pk, now);
    var m2 :- PayIn(m1, a, pk, amount * ONE, AnyIncrease, true, now);
    FillVault(m2, pk, fee, amount)
  }

  function Repay(m: Market, a: nat, pk: nat, amount: nat, fee: TransferFee, now: nat): Result<Market> {
    var _ :- CheckEnabled(m, a);
    var m1 :- AccrueAt(m, pk, now);
    var m2 :- PayIn(m1, a, pk, amount * ONE, RepayOnly, false, now);
    FillVault(m2, pk, fee, amount)
  }

  function RepayAll(m: Market, a: nat, pk: nat, fee: TransferFee, now: nat): Result<Market> {
    var _ :- CheckEnabled(m, a);
    var m1 :- AccrueAt(m, pk, now);
    var (m2, due) :- PayAllAt(m1, a, pk, now);
    FillVault(m2, pk, fee, due)
  }

  /** `lending_account_withdraw` up to its health check. */
  function TakeOut(m: Market, a: nat, pk: nat, amount: nat, fee: TransferFee, now: nat): Result<Market> {
    var _ :- CheckEnabled(m, a);
    var m1 :- AccrueAt(m, pk, now);
    var sent :- PreFee(fee, amount);
    var m2 :- PayOut(m1, a, pk, sent * ONE, WithdrawOnly, false, now);
    DrainVault(m2, pk, sent)
  }

  function Withdraw(m: Market, a: nat, pk: nat, amount: nat, fee: TransferFee, feeds: map<nat, Feed>, now: nat)
    : Result<Market>
  {
    var m1 :- TakeOut(m, a, pk, amount, fee, now);
    IfHealthy(m1, a, feeds)
  }

  function TakeAllOut(m: Market, a: nat, pk: nat, now: nat): Result<Market> {
    var _ :- CheckEnabled(m, a);
    var m1 :- AccrueAt(m, pk, now);
    var (m2, paid) :- TakeAllAt(m1, a, pk, now);
    DrainVault(m2, pk, paid)
  }

  function WithdrawAll(m: Market, a: nat, pk: nat, feeds: map<nat, Feed>, now: nat): Result<Market> {
    var m1 :- TakeAllOut(m, a, pk, now);
    IfHealthy(m1, a, feeds)
  }

  function Saturated(x: int): int {
    if MAX < x then MAX else if x < -MAX - 1 then -MAX - 1 else x
  }

  /** The origination fee on `sent` tokens. */
  function OriginationFee(bank: BankState, sent: nat): Result<int> {
    if bank.config.rates.originationFee == 0 then Ok(0) else
    var fee :- CheckedMul(sent * ONE, bank.config.rates.originationFee);
    var _ :- ToU64(fee);
    Ok(fee)
  }

  /** Book an origination fee, `program` of it for the program. */
  function WithOriginationFee(bank: BankState, fee: int, program: int): BankState {
    bank.(groupFees := Saturated(bank.groupFees + Saturated(fee - program)),
          programFees := Saturated(bank.programFees + program))
  }

  /** Split the origination fee between the program and the group.  The cached
      program fee rate applies whether or not program fees are enabled. */
  function BookOriginationFee(m: Market, pk: nat, fee: int): Result<Market> {
    var pool :- GetPool(m, pk);
    if fee == 0 then Ok(m) else
    var program :- if m.fees.rate == 0 then Ok(0) else CheckedMul(fee, m.fees.rate);
    Ok(m.PutPool(pk, pool.(bank := WithOriginationFee(pool.bank, fee, program))))
  }

  /** Lend `sent` tokens and book the origination fee. */
  function LendTokens(m: Market, a: nat, pk: nat, sent: nat, now: nat): Result<Market> {
    var pool :- GetPool(m, pk);
    var fee :- OriginationFee(pool.bank, sent);
    var delta :- Unchecked(sent * ONE + fee);
    var m1 :- PayOut(m, a, pk, delta, AnyDecrease, true, now);
    var m2 :- DrainVault(m1, pk, sent);
    BookOriginationFee(m2, pk, fee)
  }

  /** `lending_account_borrow` up to its health check. */
  function LendOut(m: Market, a: nat, pk: nat, amount: nat, fee: TransferFee, now: nat): Result<Market> {
    var _ :- CheckEnabled(m, a);
    var m1 :- AccrueAt(m, pk, now);
    var sent :- PreFee(fee, amount);
    LendTokens(m1, a, pk, sent, now)
  }

  function Borrow(m: Market, a: nat, pk: nat, amount: nat, fee: TransferFee, feeds: map<nat, Feed>, now: nat)
    : Result<Market>
  {
    var m1 :- LendOut(m, a, pk, amount, fee, now);
    IfHealthy(m1, a, feeds)
  }

  function CloseBalance(m: Market, a: nat, pk: nat, now: nat): Result<Market> {
    var _ :- CheckEnabled(m, a);
    var m1 :- AccrueAt(m, pk, now);
    CloseAt(m1, a, pk, now)
  }

  /** Whole tokens that can be paid towards `outstanding`. */
  function Payable(outstanding: int, available: int): int {
    Floor(Min(outstanding, available))
  }

  /** The pool once fees are paid out of its vault as far as it reaches: insurance
      first, then the group, then the program. */
  function Collected(pool: Pool): Result<Pool> {
    var bank := pool.bank;
    var insurance := Payable(bank.insuranceFees, pool.vault * ONE);
    var group := Payable(bank.groupFees, pool.vault * ONE - insurance);
    var program := Payable(bank.programFees, pool.vault * ONE - insurance - group);
    var t1 :- ToU64(group);
    var t2 :- ToU64(insurance);
    var t3 :- ToU64(program);
    Ok(pool.(vault := pool.vault - t1 - t2 - t3,
             bank := bank.(insuranceFees := bank.insuranceFees - insurance,
                           groupFees := bank.groupFees - group,
                           programFees := bank.programFees - program)))
  }

  function CollectFees(m: Market, pk: nat): Result<Market> {
    var pool :- GetPool(m, pk);
    var pool' :- Collected(pool);
    Ok(m.PutPool(pk, pool'))
  }

  function SettleEmissions(m: Market, a: nat, pk: nat, now: nat): Result<Market> {
    var (i, p) :- PositionAt(m, a, pk, false, now);
    var q :- p.ClaimEmissions(now);
    Ok(m.Put(pk, m.pools[pk].(bank := q.bank), a, i, q.balance))
  }

  function WithdrawEmissions(m: Market, a: nat, pk: nat, now: nat): Result<Market> {
    var _ :- CheckEnabled(m, a);
    var (i, p) :- PositionAt(m, a, pk, false, now);
    var (q, paid) :- p.SettleEmissions(now);
    var pool := m.pools[pk];
    Ok(m.Put(pk, pool.(bank := q.bank, emissionsPaid := pool.emissionsPaid + paid), a, i, q.balance))
  }

  function SetupEmissions(m: Market, pk: nat, lending: bool, borrowing: bool, rate: nat, total: nat): Result<Market> {
    var pool :- GetPool(m, pk);
    var _ :- Check(!pool.bank.emissionsSetUp, EmissionsAlreadySetup);
    Ok(m.PutPool(pk, pool.(emissionsFunded := pool.emissionsFunded + total,
                           bank := pool.bank.(emissionsSetUp := true, emissionsRate := rate,
                                              lendingEmissions := lending, borrowEmissions := borrowing,
                                              emissionsRemaining := total * ONE))))
  }

  function UpdateEmissions(m: Market, pk: nat, flags: Option<(bool, bool)>, rate: Option<nat>, additional: nat)
    : Result<Market>
  {
    var pool :- GetPool(m, pk);
    var _ :- Check(pool.bank.emissionsSetUp, EmissionsUpdateError);
    var remaining :- Checked(pool.bank.emissionsRemaining + additional * ONE);
    var bank := pool.bank.(emissionsRemaining := remaining,
                           emissionsRate := if rate.Some? then rate.value else pool.bank.emissionsRate,
                           lendingEmissions := if flags.Some? then flags.value.0 else pool.bank.lendingEmissions,
                           borrowEmissions := if flags.Some? then flags.value.1 else pool.bank.borrowEmissions);
    Ok(m.PutPool(pk, pool.(emissionsFunded := pool.emissionsFunded + additional, bank := bank)))
  }

  function ConfigureBank(m: Market, pk: nat, config: BankConfig): Result<Market> {
    var pool :- GetPool(m, pk);
    var _ :- config.Validate();
    Ok(m.PutPool(pk, pool.(bank := pool.bank.(config := config))))
  }

  function AddBank(m: Market, pk: nat, config: BankConfig, decimals: nat, now: nat): Result<Market> {
    var _ :- Check(pk !in m.pools, Panic);
    var _ :- config.Validate();
    Ok(m.PutPool(pk, Pool(NewBank(config, decimals, now), 0, 0, 0, 0, 0, 0)))
  }

  function EmptyBalances(n: nat): seq<BalanceState> {
    if n == 0 then [] else [EMPTY_BALANCE] + EmptyBalances(n - 1)
  }

  function CreateAccount(m: Market): Result<Market> {
    Ok(m.(accounts := m.accounts + [Account(EmptyBalances(MAX_LENDING_ACCOUNT_BALANCES), false, false)]))
  }

  function StartFlashloan(m: Market, a: nat): Result<Market> {
    var _ :- CheckEnabled(m, a);
    var _ :- Check(!m.accounts[a].inFlashloan, IllegalFlashloan);
    Ok(m.(accounts := m.accounts[a := m.accounts[a].(inFlashloan := true)]))
  }

  function EndFlashloan(m: Market, a: nat, feeds: map<nat, Feed>): Result<Market> {
    if |m.accounts| <= a then Err(NoSuchAccount) else
    IfHealthy(m.(accounts := m.accounts[a := m.accounts[a].(inFlashloan := false)]), a, feeds)
  }

  /** What account `a` owes bank `pk`, if it is more than dust. */
  function BadDebt(m: Market, a: nat, pk: nat): Result<int> {
    var pool :- GetPool(m, pk);
    if |m.accounts| <= a then Err(NoSuchAccount) else
    match FindBalance(m.accounts[a].balances, pk)
    case None => Err(LendingAccountBalanceNotFound)
    case Some(i) =>
      var debt :- pool.bank.LiabilityAmount(m.accounts[a].balances[i].liabilityShares);
      var _ :- Check(ZERO_AMOUNT_THRESHOLD < debt, BalanceNotBadDebt);
      Ok(debt)
  }

  function SocializeAt(m: Market, pk: nat, loss: int): Result<Market> {
    var pool :- GetPool(m, pk);
    var bank :- pool.bank.SocializeLoss(loss);
    Ok(m.PutPool(pk, pool.(bank := bank)))
  }

  /** The part of `debt` that `insurance` tokens cover. */
  function Covered(debt: int, insurance: nat, fee: TransferFee): int {
    Min(debt, Received(fee, insurance) * ONE)
  }

  /** Cover `debt` from insurance, socialize the rest and write the debt off. */
  function WriteOff(m: Market, a: nat, pk: nat, debt: int, insurance: nat, fee: TransferFee, now: nat): Result<Market> {
    var covered := Covered(debt, insurance, fee);
    var rounded :- ToU64(Ceil(covered));
    var sent :- PreFee(fee, rounded);
    var _ :- Check(sent <= insurance, TransferFailed);
    var m1 :- FillVault(m, pk, fee, rounded);
    var m2 :- SocializeAt(m1, pk, Max(debt - covered, 0));
    PayIn(m2, a, pk, debt, RepayOnly, true, now)
  }

  function Disable(m: Market, a: nat): Market {
    if |m.accounts| <= a then m else m.(accounts := m.accounts[a := m.accounts[a].(disabled := true)])
  }

  /** `lending_pool_handle_bankruptcy` after its bankruptcy check. */
  function SettleBadDebt(m: Market, a: nat, pk: nat, insurance: nat, fee: TransferFee, now: nat): Result<Market> {
    var m1 :- AccrueAt(m, pk, now);
    var debt :- BadDebt(m1, a, pk);
    var m2 :- WriteOff(m1, a, pk, debt, insurance, fee, now);
    Ok(Disable(m2, a))
  }

  function HandleBankruptcy(m: Market, a: nat, pk: nat, insurance: nat, fee: TransferFee, feeds: map<nat, Feed>, now: nat)
    : Result<Market>
  {
    var _ :- Check(!InFlashloan(m, a), AccountInFlashloan);
    var _ :- CheckBankrupt(InFlashloan(m, a), Exposures(m, a, feeds));
    SettleBadDebt(m, a, pk, insurance, fee, now)
  }

  function FeedPrice(feeds: map<nat, Feed>, pk: nat, bias: Bias): Result<int> {
    if pk in feeds then PriceOfType(feeds[pk], RealTime, bias) else Err(StaleOracle)
  }

  /** The liability bought with `amount` tokens of collateral at a discount. */
  function LiquidationQuote(amount: nat, assetBank: BankState, assetPrice: int, liabilityBank: BankState,
                            liabilityPrice: int, discount: int): Result<int>
  {
    var value :- CalcValue(amount * ONE, assetPrice, assetBank.mintDecimals, Some(discount));
    CalcAmount(value, liabilityPrice, liabilityBank.mintDecimals)
  }

  /** Pay the whole tokens of the insurance fee out of the vault and book the
      fraction. */
  function BookInsuranceFee(m: Market, pk: nat, fee: int): Result<Market> {
    var tokens :- ToU64(fee);
    var m1 :- DrainVault(m, pk, tokens);
    var pool := m1.pools[pk];
    var insurance :- Checked(pool.bank.insuranceFees + (fee - Floor(fee)));
    Ok(m1.PutPool(pk, pool.(bank := pool.bank.(insuranceFees := insurance))))
  }

  function AccrueBoth(m: Market, assetPk: nat, liabilityPk: nat, now: nat): Result<Market> {
    var m1 :- AccrueAt(m, assetPk, now);
    AccrueAt(m1, liabilityPk, now)
  }

  /** The liability the liquidator takes over, and the part of it the liquidatee
      is relieved of. */
  function LiquidationAmounts(m: Market, assetPk: nat, liabilityPk: nat, amount: nat, feeds: map<nat, Feed>)
    : Result<(int, int)>
  {
    var assetPool :- GetPool(m, assetPk);
    var liabilityPool :- GetPool(m, liabilityPk);
    var assetPrice :- FeedPrice(feeds, assetPk, Low);
    var liabilityPrice :- FeedPrice(feeds, liabilityPk, High);
    var paid :- LiquidationQuote(amount, assetPool.bank, assetPrice, liabilityPool.bank, liabilityPrice,
                                 ONE - LIQUIDATION_LIQUIDATOR_FEE);
    var received :- LiquidationQuote(amount, assetPool.bank, assetPrice, liabilityPool.bank, liabilityPrice,
                                     ONE - (LIQUIDATION_INSURANCE_FEE + LIQUIDATION_LIQUIDATOR_FEE));
    var _ :- Check(0 <= paid - received, Panic);
    Ok((paid, received))
  }

  /** The four balance changes of a liquidation and its insurance fee. */
  function SwapPositions(m: Market, liquidator: nat, liquidatee: nat, assetPk: nat, liabilityPk: nat, amount: nat,
                         paid: int, received: int, now: nat): Result<Market>
  {
    var m1 :- PayOut(m, liquidator, liabilityPk, paid, BypassBorrowLimit, true, now);
    var m2 :- PayOut(m1, liquidatee, assetPk, amount * ONE, WithdrawOnly, false, now);
    var m3 :- PayIn(m2, liquidator, assetPk, amount * ONE, BypassDepositLimit, true, now);
    var m4 :- PayIn(m3, liquidatee, liabilityPk, received, AnyIncrease, true, now);
    BookInsuranceFee(m4, liabilityPk, paid - received)
  }

  function Liquidate(m: Market, liquidator: nat, liquidatee: nat, assetPk: nat, liabilityPk: nat, amount: nat,
                     feeds: map<nat, Feed>, now: nat): Result<Market>
  {
    var _ :- Check(0 < amount, IllegalLiquidation);
    var _ :- Check(assetPk != liabilityPk, IllegalLiquidation);
    var _ :- Check(liquidator != liquidatee, Panic);
    var m1 :- AccrueBoth(m, assetPk, liabilityPk, now);
    var _ :- Check(!InFlashloan(m, liquidatee), AccountInFlashloan);
    var before :- CheckPreLiquidation(false, Exposures(m1, liquidatee, feeds), liabilityPk);
    var (paid, received) :- LiquidationAmounts(m1, assetPk, liabilityPk, amount, feeds);
    var m2 :- SwapPositions(m1, liquidator, liquidatee, assetPk, liabilityPk, amount, paid, received, now);
    var _ :- CheckPostLiquidation(false, Exposures(m2, liquidatee, feeds), liabilityPk, before);
    IfHealthy(m2, liquidator, feeds)
  }

  // -------------------------------------------------------------------- steps

  datatype Action =
    | ADeposit(a: nat, pk: nat, amount: nat, fee: TransferFee, now: nat)
    | ARepay(a: nat, pk: nat, amount: nat, fee: TransferFee, now: nat)
    | ARepayAll(a: nat, pk: nat, fee: TransferFee, now: nat)
    | AWithdraw(a: nat, pk: nat, amount: nat, fee: TransferFee, feeds: map<nat, Feed>, now: nat)
    | AWithdrawAll(a: nat, pk: nat, feeds: map<nat, Feed>, now: nat)
    | ABorrow(a: nat, pk: nat, amount: nat, fee: TransferFee, feeds: map<nat, Feed>, now: nat)
    | ACloseBalance(a: nat, pk: nat, now: nat)
    | AAccrue(pk: nat, now: nat)
    | ACollectFees(pk: nat)
    | ASettleEmissions(a: nat, pk: nat, now: nat)
    | AWithdrawEmissions(a: nat, pk: nat, now: nat)
    | ASetupEmissions(pk: nat, lending: bool, borrowing: bool, rate: nat, total: nat)
    | AUpdateEmissions(pk: nat, flags: Option<(bool, bool)>, newRate: Option<nat>, additional: nat)
    | AConfigure(pk: nat, config: BankConfig)
    | AAddBank(pk: nat, config: BankConfig, decimals: nat, now: nat)
    | ACreateAccount
    | ASetProgramFees(fees: ProgramFees)
    | AStartFlashloan(a: nat)
    | AEndFlashloan(a: nat, feeds: map<nat, Feed>)
    | ABankruptcy(a: nat, pk: nat, insurance: nat, fee: TransferFee, feeds: map<nat, Feed>, now: nat)
    | ALiquidate(a: nat, liquidatee: nat, assetPk: nat, pk: nat, amount: nat, feeds: map<nat, Feed>, now: nat)

  function Process(m: Market, action: Action): Result<Market> {
    match action
    case ADeposit(a, pk, amount, fee, now) => Deposit(m, a, pk, amount, fee, now)
    case ARepay(a, pk, amount, fee, now) => Repay(m, a, pk, amount, fee, now)
    case ARepayAll(a, pk, fee, now) => RepayAll(m, a, pk, fee, now)
    case AWithdraw(a, pk, amount, fee, feeds, now) => Withdraw(m, a, pk, amount, fee, feeds, now)
    case AWithdrawAll(a, pk, feeds, now) => WithdrawAll(m, a, pk, feeds, now)
    case ABorrow(a, pk, amount, fee, feeds, now) => Borrow(m, a, pk, amount, fee, feeds, now)
    case ACloseBalance(a, pk, now) => CloseBalance(m, a, pk, now)
    case AAccrue(pk, now) => AccrueAt(m, pk, now)
    case ACollectFees(pk) => CollectFees(m, pk)
    case ASettleEmissions(a, pk, now) => SettleEmissions(m, a, pk, now)
    case AWithdrawEmissions(a, pk, now) => WithdrawEmissions(m, a, pk, now)
    case ASetupEmissions(pk, lending, borrowing, rate, total) => SetupEmissions(m, pk, lending, borrowing, rate, total)
    case AUpdateEmissions(pk, flags, rate, additional) => UpdateEmissions(m, pk, flags, rate, additional)
    case AConfigure(pk, config) => ConfigureBank(m, pk, config)
    case AAddBank(pk, config, decimals, now) => AddBank(m, pk, config, decimals, now)
    case ACreateAccount => CreateAccount(m)
    case ASetProgramFees(fees) => Ok(m.(fees := fees))
    case AStartFlashloan(a) => StartFlashloan(m, a)
    case AEndFlashloan(a, feeds) => EndFlashloan(m, a, feeds)
    case ABankruptcy(a, pk, insurance, fee, feeds, now) => HandleBankruptcy(m, a, pk, insurance, fee, feeds, now)
    case ALiquidate(a, liquidatee, assetPk, pk, amount, feeds, now) =>
      Liquidate(m, a, liquidatee, assetPk, pk, amount, feeds, now)
  }

  /** The market after a transaction: rolled back if it failed. */
  function Step(m: Market, action: Action): Market {
    var r := Process(m, action);
    if r.Ok? then r.value else m
  }

  function Run(m: Market, actions: seq<Action>): Market
    decreases |actions|
  {
    if actions == [] then m else Run(Step(m, actions[0]), actions[1..])
  }

  const EMPTY_MARKET := Market(map[], [], ProgramFees(true, 0, 0))
}
