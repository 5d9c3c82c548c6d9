/** Flags of accounts and settings of banks change by the instructions meant for them and by
    no others, over whole runs. */
module Settings {
  import opened Results
  import opened FixedPoint
  import opened Interest
  import opened Banks
  import opened Positions
  import opened TransferFees
  import opened Prices
  import opened Risk
  import opened Ledger
  import opened Instructions
  import opened Runs

  /** What a bank is set up to do. */
  datatype Setup = Setup(config: BankConfig, decimals: nat, emitting: bool, lending: bool, borrowing: bool, rate: nat)

  function SetupOf(b: BankState): Setup {
    Setup(b.config, b.mintDecimals, b.emissionsSetUp, b.lendingEmissions, b.borrowEmissions, b.emissionsRate)
  }

  predicate SameFlags(m: Market, m': Market) {
    && |m'.accounts| == |m.accounts|
    && forall c :: 0 <= c < |m.accounts| ==>
         m'.accounts[c].disabled == m.accounts[c].disabled && m'.accounts[c].inFlashloan == m.accounts[c].inFlashloan
  }

  predicate SameSetups(m: Market, m': Market) {
    && m'.pools.Keys == m.pools.Keys && m'.fees == m.fees
    && forall k :: k in m.pools ==> SetupOf(m'.pools[k].bank) == SetupOf(m.pools[k].bank)
  }

  predicate SameSettings(m: Market, m': Market) {
    SameFlags(m, m') && SameSetups(m, m')
  }

  lemma SameThen(m: Market, m1: Market, m2: Market)
    requires SameSettings(m, m1) && SameSettings(m1, m2)
    ensures SameSettings(m, m2)
  {
    hide SetupOf;
  }

  lemma SameSettingsRefl(m: Market)
    ensures SameSettings(m, m)
  {
  }

  // --------------------------------------------------------- building blocks

  lemma PutSame(m: Market, pk: nat, pool: Pool, a: nat, i: nat, b: BalanceState)
    requires pk in m.pools && SetupOf(pool.bank) == SetupOf(m.pools[pk].bank)
    requires a < |m.accounts| && i < |m.accounts[a].balances|
    ensures SameSettings(m, m.Put(pk, pool, a, i, b))
  {
  }

  lemma PutPoolSame(m: Market, pk: nat, pool: Pool)
    requires pk in m.pools && SetupOf(pool.bank) == SetupOf(m.pools[pk].bank)
    ensures SameSettings(m, m.PutPool(pk, pool))
  {
  }

  lemma AccrueSame(m: Market, pk: nat, now: nat)
    requires AccrueAt(m, pk, now).Ok?
    ensures SameSettings(m, AccrueAt(m, pk, now).value)
  {
    hide AccrualChanges;
    PutPoolSame(m, pk, AccrueAt(m, pk, now).value.pools[pk]);
  }

  lemma ClaimSame(p: Position, now: nat)
    requires p.ClaimEmissions(now).Ok?
    ensures SetupOf(p.ClaimEmissions(now).value.bank) == SetupOf(p.bank)
  {
    hide CalcEmissions;
  }

  lemma RaiseSame(p: Position, delta: int, kind: IncreaseType)
    requires p.Raise(delta, kind).Ok?
    ensures SetupOf(p.Raise(delta, kind).value.bank) == SetupOf(p.bank)
    ensures p.bank.config.operationalState != Paused
  {
    hide CheckedMul, CheckedDiv;
  }

  lemma LowerSame(p: Position, delta: int, kind: DecreaseType)
    requires p.Lower(delta, kind).Ok?
    ensures SetupOf(p.Lower(delta, kind).value.bank) == SetupOf(p.bank)
    ensures p.bank.config.operationalState != Paused
  {
    hide CheckedMul, CheckedDiv;
  }

  /** Bank `pk` is not paused. */
  predicate Open(m: Market, pk: nat) {
    pk in m.pools && m.pools[pk].bank.config.operationalState != Paused
  }

  lemma PayInSame(m: Market, a: nat, pk: nat, delta: int, kind: IncreaseType, create: bool, now: nat)
    requires PayIn(m, a, pk, delta, kind, create, now).Ok?
    ensures Open(m, pk) && SameSettings(m, PayIn(m, a, pk, delta, kind, create, now).value)
  {
    hide Position.ClaimEmissions, Position.Raise, FindBalance, FirstEmptyFrom;
    var (i, p) := PositionAt(m, a, pk, create, now).value;
    ClaimSame(p, now);
    var c := p.ClaimEmissions(now).value;
    RaiseSame(c, delta, kind);
    var q := c.Raise(delta, kind).value;
    SlotExists(m.accounts[a].balances, pk, create, now);
    PutSame(m, pk, m.pools[pk].(bank := q.bank), a, i, q.balance);
  }

  lemma SlotExists(bs: seq<BalanceState>, pk: nat, create: bool, now: nat)
    requires SlotFor(bs, pk, create, now).Ok?
    ensures SlotFor(bs, pk, create, now).value.0 < |bs|
  {
  }

  lemma PayOutSame(m: Market, a: nat, pk: nat, delta: int, kind: DecreaseType, create: bool, now: nat)
    requires PayOut(m, a, pk, delta, kind, create, now).Ok?
    ensures Open(m, pk) && SameSettings(m, PayOut(m, a, pk, delta, kind, create, now).value)
  {
    hide Position.ClaimEmissions, Position.Lower, FindBalance, FirstEmptyFrom;
    var (i, p) := PositionAt(m, a, pk, create, now).value;
    ClaimSame(p, now);
    var c := p.ClaimEmissions(now).value;
    LowerSame(c, delta, kind);
    var q := c.Lower(delta, kind).value;
    SlotExists(m.accounts[a].balances, pk, create, now);
    PutSame(m, pk, m.pools[pk].(bank := q.bank), a, i, q.balance);
  }

  lemma TakeAllSame(p: Position)
    requires p.TakeAll().Ok?
    ensures SetupOf(p.TakeAll().value.0.bank) == SetupOf(p.bank) && p.bank.config.operationalState != Paused
  {
    hide CheckedMul, CheckedDiv, BankState.CheckUtilizationRatio;
  }

  lemma PayAllSame(p: Position)
    requires p.PayAll().Ok?
    ensures SetupOf(p.PayAll().value.0.bank) == SetupOf(p.bank) && p.bank.config.operationalState != Paused
  {
    hide CheckedMul, CheckedDiv;
  }

  lemma CloseSame(p: Position, now: nat)
    requires p.CloseBalance(now).Ok?
    ensures SetupOf(p.CloseBalance(now).value.bank) == SetupOf(p.bank)
  {
    hide Position.ClaimEmissions, CheckedMul;
    ClaimSame(p, now);
  }

  lemma TakeAllAtSame(m: Market, a: nat, pk: nat, now: nat)
    requires TakeAllAt(m, a, pk, now).Ok?
    ensures Open(m, pk) && SameSettings(m, TakeAllAt(m, a, pk, now).value.0)
  {
    hide Position.ClaimEmissions, Position.TakeAll, FindBalance;
    var (i, p) := PositionAt(m, a, pk, false, now).value;
    ClaimSame(p, now);
    TakeAllSame(p.ClaimEmissions(now).value);
    var m' := TakeAllAt(m, a, pk, now).value.0;
    SlotExists(m.accounts[a].balances, pk, false, now);
    PutSame(m, pk, m'.pools[pk], a, i, m'.accounts[a].balances[i]);
  }

  lemma PayAllAtSame(m: Market, a: nat, pk: nat, now: nat)
    requires PayAllAt(m, a, pk, now).Ok?
    ensures Open(m, pk) && SameSettings(m, PayAllAt(m, a, pk, now).value.0)
  {
    hide Position.ClaimEmissions, Position.PayAll, FindBalance;
    var (i, p) := PositionAt(m, a, pk, false, now).value;
    ClaimSame(p, now);
    PayAllSame(p.ClaimEmissions(now).value);
    var m' := PayAllAt(m, a, pk, now).value.0;
    SlotExists(m.accounts[a].balances, pk, false, now);
    PutSame(m, pk, m'.pools[pk], a, i, m'.accounts[a].balances[i]);
  }

  lemma CloseAtSame(m: Market, a: nat, pk: nat, now: nat)
    requires CloseAt(m, a, pk, now).Ok?
    ensures SameSettings(m, CloseAt(m, a, pk, now).value)
  {
    hide Position.ClaimEmissions, Position.CloseBalance, FindBalance;
    var (i, p) := PositionAt(m, a, pk, false, now).value;
    ClaimSame(p, now);
    CloseSame(p, now);
    var m' := CloseAt(m, a, pk, now).value;
    SlotExists(m.accounts[a].balances, pk, false, now);
    PutSame(m, pk, m'.pools[pk], a, i, m'.accounts[a].balances[i]);
  }

  lemma MoveVaultSame(m: Market, pk: nat, tokens: int)
    requires MoveVault(m, pk, tokens).Ok?
    ensures SameSettings(m, MoveVault(m, pk, tokens).value)
  {
    PutPoolSame(m, pk, MoveVault(m, pk, tokens).value.pools[pk]);
  }

  lemma BookOriginationSame(m: Market, pk: nat, fee: int)
    requires BookOriginationFee(m, pk, fee).Ok?
    ensures SameSettings(m, BookOriginationFee(m, pk, fee).value)
  {
    hide SameSettings, Saturated;
    SameSettingsRefl(m);
    PutPoolSame(m, pk, BookOriginationFee(m, pk, fee).value.pools[pk]);
  }

  lemma BookInsuranceSame(m: Market, pk: nat, fee: int)
    requires BookInsuranceFee(m, pk, fee).Ok?
    ensures SameSettings(m, BookInsuranceFee(m, pk, fee).value)
  {
    hide SameSettings, Floor;
    var m' := BookInsuranceFee(m, pk, fee).value;
    assert m'.pools == m.pools[pk := m'.pools[pk]];
    PutPoolSame(m, pk, m'.pools[pk]);
  }

  // -------------------------------------------------------------- instructions

  lemma SwapSame(m: Market, a: nat, b: nat, assetPk: nat, debtPk: nat, amount: nat, paid: int, received: int, now: nat)
    requires SwapPositions(m, a, b, assetPk, debtPk, amount, paid, received, now).Ok?
    ensures Open(m, assetPk) && Open(m, debtPk)
    ensures SameSettings(m, SwapPositions(m, a, b, assetPk, debtPk, amount, paid, received, now).value)
  {
    hide PayIn, PayOut, BookInsuranceFee, SameFlags;
    PayOutSame(m, a, debtPk, paid, BypassBorrowLimit, true, now);
    var m1 := PayOut(m, a, debtPk, paid, BypassBorrowLimit, true, now).value;
    PayOutSame(m1, b, assetPk, amount * ONE, WithdrawOnly, false, now);
    var m2 := PayOut(m1, b, assetPk, amount * ONE, WithdrawOnly, false, now).value;
    PayInSame(m2, a, assetPk, amount * ONE, BypassDepositLimit, true, now);
    var m3 := PayIn(m2, a, assetPk, amount * ONE, BypassDepositLimit, true, now).value;
    PayInSame(m3, b, debtPk, received, AnyIncrease, true, now);
    var m4 := PayIn(m3, b, debtPk, received, AnyIncrease, true, now).value;
    BookInsuranceSame(m4, debtPk, paid - received);
    SameThen(m, m1, m2);
    SameThen(m, m2, m3);
    SameThen(m, m3, m4);
    SameThen(m, m4, BookInsuranceFee(m4, debtPk, paid - received).value);
  }

  lemma LiquidateSame(m: Market, a: nat, b: nat, assetPk: nat, debtPk: nat, amount: nat, feeds: map<nat, Feed>, now: nat)
    requires Liquidate(m, a, b, assetPk, debtPk, amount, feeds, now).Ok?
    ensures Open(m, assetPk) && Open(m, debtPk)
    ensures SameSettings(m, Liquidate(m, a, b, assetPk, debtPk, amount, feeds, now).value)
  {
    hide AccrueAt, SwapPositions, LiquidationAmounts, IfHealthy, Exposures, CheckPreLiquidation, CheckPostLiquidation,
         InFlashloan, SameFlags;
    var m0 := AccrueAt(m, assetPk, now).value;
    AccrueSame(m, assetPk, now);
    AccrueSame(m0, debtPk, now);
    var m1 := AccrueAt(m0, debtPk, now).value;
    SameThen(m, m0, m1);
    var (paid, received) := LiquidationAmounts(m1, assetPk, debtPk, amount, feeds).value;
    SwapSame(m1, a, b, assetPk, debtPk, amount, paid, received, now);
    var m2 := SwapPositions(m1, a, b, assetPk, debtPk, amount, paid, received, now).value;
    SameThen(m, m1, m2);
    IfHealthyIs(m2, a, feeds);
  }

  /** Deposits and repayments. */
  lemma PayingInSame(m: Market, a: nat, pk: nat, amount: nat, fee: TransferFee, now: nat)
    ensures Deposit(m, a, pk, amount, fee, now).Ok? ==>
              Open(m, pk) && SameSettings(m, Deposit(m, a, pk, amount, fee, now).value)
    ensures Repay(m, a, pk, amount, fee, now).Ok? ==>
              Open(m, pk) && SameSettings(m, Repay(m, a, pk, amount, fee, now).value)
    ensures RepayAll(m, a, pk, fee, now).Ok? ==>
              Open(m, pk) && SameSettings(m, RepayAll(m, a, pk, fee, now).value)
  {
    hide AccrueAt, PayIn, PayAllAt, MoveVault, PreFee, Received, SameFlags;
    if AccrueAt(m, pk, now).Ok? {
      AccrueSame(m, pk, now);
      var m1 := AccrueAt(m, pk, now).value;
      if Deposit(m, a, pk, amount, fee, now).Ok? {
        PayInSame(m1, a, pk, amount * ONE, AnyIncrease, true, now);
        Filled(m, m1, PayIn(m1, a, pk, amount * ONE, AnyIncrease, true, now).value, pk, fee, amount);
      }
      if Repay(m, a, pk, amount, fee, now).Ok? {
        PayInSame(m1, a, pk, amount * ONE, RepayOnly, false, now);
        Filled(m, m1, PayIn(m1, a, pk, amount * ONE, RepayOnly, false, now).value, pk, fee, amount);
      }
      if RepayAll(m, a, pk, fee, now).Ok? {
        PayAllAtSame(m1, a, pk, now);
        Filled(m, m1, PayAllAt(m1, a, pk, now).value.0, pk, fee, PayAllAt(m1, a, pk, now).value.1);
      }
    }
  }

  lemma Filled(m: Market, m1: Market, m2: Market, pk: nat, fee: TransferFee, amount: nat)
    requires SameSettings(m, m1) && SameSettings(m1, m2) && FillVault(m2, pk, fee, amount).Ok?
    ensures SameSettings(m, FillVault(m2, pk, fee, amount).value)
  {
    hide SameSettings, MoveVault, PreFee, Received;
    SameThen(m, m1, m2);
    MoveVaultSame(m2, pk, Received(fee, PreFee(fee, amount).value));
    SameThen(m, m2, FillVault(m2, pk, fee, amount).value);
  }

  /** Withdrawals. */
  lemma TakingOutSame(m: Market, a: nat, pk: nat, amount: nat, fee: TransferFee, now: nat)
    ensures TakeOut(m, a, pk, amount, fee, now).Ok? ==>
              Open(m, pk) && SameSettings(m, TakeOut(m, a, pk, amount, fee, now).value)
    ensures TakeAllOut(m, a, pk, now).Ok? ==> Open(m, pk) && SameSettings(m, TakeAllOut(m, a, pk, now).value)
  {
    hide AccrueAt, PayOut, TakeAllAt, MoveVault, PreFee, SameFlags;
    if AccrueAt(m, pk, now).Ok? {
      AccrueSame(m, pk, now);
      var m1 := AccrueAt(m, pk, now).value;
      if TakeOut(m, a, pk, amount, fee, now).Ok? {
        var sent := PreFee(fee, amount).value;
        PayOutSame(m1, a, pk, sent * ONE, WithdrawOnly, false, now);
        Drained(m, m1, PayOut(m1, a, pk, sent * ONE, WithdrawOnly, false, now).value, pk, sent);
      }
      if TakeAllOut(m, a, pk, now).Ok? {
        TakeAllAtSame(m1, a, pk, now);
        Drained(m, m1, TakeAllAt(m1, a, pk, now).value.0, pk, TakeAllAt(m1, a, pk, now).value.1);
      }
    }
  }

  lemma Drained(m: Market, m1: Market, m2: Market, pk: nat, amount: nat)
    requires SameSettings(m, m1) && SameSettings(m1, m2) && DrainVault(m2, pk, amount).Ok?
    ensures SameSettings(m, DrainVault(m2, pk, amount).value)
  {
    hide SameSettings, MoveVault;
    SameThen(m, m1, m2);
    MoveVaultSame(m2, pk, 0 - amount);
    SameThen(m, m2, DrainVault(m2, pk, amount).value);
  }

  /** Loans. */
  lemma LendingSame(m: Market, a: nat, pk: nat, amount: nat, fee: TransferFee, now: nat)
    requires LendOut(m, a, pk, amount, fee, now).Ok?
    ensures Open(m, pk) && SameSettings(m, LendOut(m, a, pk, amount, fee, now).value)
  {
    hide AccrueAt, PayOut, DrainVault, PreFee, SameFlags, OriginationFee, BookOriginationFee;
    AccrueSame(m, pk, now);
    var m1 := AccrueAt(m, pk, now).value;
    var sent := PreFee(fee, amount).value;
    var origination := OriginationFee(m1.pools[pk].bank, sent).value;
    PayOutSame(m1, a, pk, sent * ONE + origination, AnyDecrease, true, now);
    var m2 := PayOut(m1, a, pk, sent * ONE + origination, AnyDecrease, true, now).value;
    var m3 := DrainVault(m2, pk, sent).value;
    Drained(m, m1, m2, pk, sent);
    BookOriginationSame(m3, pk, origination);
    SameThen(m, m3, BookOriginationFee(m3, pk, origination).value);
  }

  /** Interest, fees, emissions and closing a balance. */
  lemma UpkeepSame(m: Market, a: nat, pk: nat, now: nat)
    ensures CloseBalance(m, a, pk, now).Ok? ==> SameSettings(m, CloseBalance(m, a, pk, now).value)
    ensures CollectFees(m, pk).Ok? ==> SameSettings(m, CollectFees(m, pk).value)
    ensures SettleEmissions(m, a, pk, now).Ok? ==> SameSettings(m, SettleEmissions(m, a, pk, now).value)
    ensures WithdrawEmissions(m, a, pk, now).Ok? ==> SameSettings(m, WithdrawEmissions(m, a, pk, now).value)
  {
    hide AccrueAt, CloseAt, SameSettings, Payable, Position.ClaimEmissions, FindBalance;
    if CloseBalance(m, a, pk, now).Ok? {
      AccrueSame(m, pk, now);
      var m1 := AccrueAt(m, pk, now).value;
      CloseAtSame(m1, a, pk, now);
      SameThen(m, m1, CloseAt(m1, a, pk, now).value);
    }
    if CollectFees(m, pk).Ok? {
      PutPoolSame(m, pk, Collected(m.pools[pk]).value);
    }
    if PositionAt(m, a, pk, false, now).Ok? {
      var (i, p) := PositionAt(m, a, pk, false, now).value;
      SlotExists(m.accounts[a].balances, pk, false, now);
      if p.ClaimEmissions(now).Ok? {
        ClaimSame(p, now);
        var c, pool := p.ClaimEmissions(now).value, m.pools[pk];
        PutSame(m, pk, pool.(bank := c.bank), a, i, c.balance);
        if WithdrawEmissions(m, a, pk, now).Ok? {
          var (q, paid) := c.PayEmissions().value;
          PutSame(m, pk, pool.(bank := q.bank, emissionsPaid := pool.emissionsPaid + paid), a, i, q.balance);
        }
      }
    }
  }

  /** Settling a bankruptcy disables the account. */
  lemma BankruptcyDisables(m: Market, a: nat, pk: nat, insurance: nat, fee: TransferFee, now: nat)
    requires SettleBadDebt(m, a, pk, insurance, fee, now).Ok?
    ensures Open(m, pk) && SameSetups(m, SettleBadDebt(m, a, pk, insurance, fee, now).value)
    ensures var m' := SettleBadDebt(m, a, pk, insurance, fee, now).value;
            && a < |m.accounts| == |m'.accounts|
            && forall c :: 0 <= c < |m.accounts| ==>
                 && m'.accounts[c].disabled == (c == a || m.accounts[c].disabled)
                 && m'.accounts[c].inFlashloan == m.accounts[c].inFlashloan
  {
    hide AccrueAt, FillVault, PayIn, SocializeAt, BadDebt, Covered, PreFee;
    AccrueSame(m, pk, now);
    var m1 := AccrueAt(m, pk, now).value;
    BadDebtNeedsAccount(m1, a, pk);
    var debt := BadDebt(m1, a, pk).value;
    WriteOffSame(m1, a, pk, debt, insurance, fee, now);
    SameThen(m, m1, WriteOff(m1, a, pk, debt, insurance, fee, now).value);
  }

  lemma BadDebtNeedsAccount(m: Market, a: nat, pk: nat)
    requires BadDebt(m, a, pk).Ok?
    ensures a < |m.accounts|
  {
  }

  lemma WriteOffSame(m: Market, a: nat, pk: nat, debt: int, insurance: nat, fee: TransferFee, now: nat)
    requires WriteOff(m, a, pk, debt, insurance, fee, now).Ok?
    ensures Open(m, pk) && SameSettings(m, WriteOff(m, a, pk, debt, insurance, fee, now).value)
  {
    hide FillVault, PayIn, SocializeAt, Covered, PreFee, SameFlags;
    var covered := Covered(debt, insurance, fee);
    var rounded := ToU64(Ceil(covered)).value;
    var m1 := FillVault(m, pk, fee, rounded).value;
    SameSettingsRefl(m);
    Filled(m, m, m, pk, fee, rounded);
    SocializeSame(m1, pk, Max(debt - covered, 0));
    var m2 := SocializeAt(m1, pk, Max(debt - covered, 0)).value;
    SameThen(m, m1, m2);
    PayInSame(m2, a, pk, debt, RepayOnly, true, now);
    SameThen(m, m2, PayIn(m2, a, pk, debt, RepayOnly, true, now).value);
  }

  lemma SocializeSame(m: Market, pk: nat, loss: int)
    requires SocializeAt(m, pk, loss).Ok?
    ensures SameSettings(m, SocializeAt(m, pk, loss).value)
  {
    PutPoolSame(m, pk, SocializeAt(m, pk, loss).value.pools[pk]);
  }

  // ----------------------------------------------------------- every action

  /** Actions that move tokens between a user and bank `pk`. */
  predicate MovesTokens(action: Action, pk: nat) {
    match action
    case ADeposit(_, k, _, _, _) => k == pk
    case ARepay(_, k, _, _, _) => k == pk
    case ARepayAll(_, k, _, _) => k == pk
    case AWithdraw(_, k, _, _, _, _) => k == pk
    case AWithdrawAll(_, k, _, _) => k == pk
    case ABorrow(_, k, _, _, _, _) => k == pk
    case ABankruptcy(_, k, _, _, _, _) => k == pk
    case ALiquidate(_, _, assetPk, k, _, _, _) => k == pk || assetPk == pk
    case _ => false
  }

  /** Actions that set nothing. */
  predicate SetsNothing(action: Action) {
    !(action.ASetupEmissions? || action.AUpdateEmissions? || action.AConfigure? || action.AAddBank?
      || action.ACreateAccount? || action.ASetProgramFees? || action.AStartFlashloan? || action.AEndFlashloan?
      || action.ABankruptcy?)
  }

  lemma ProcessSame(m: Market, action: Action)
    requires SetsNothing(action) && Process(m, action).Ok?
    ensures SameSettings(m, Process(m, action).value) && forall k :: MovesTokens(action, k) ==> Open(m, k)
  {
    hide Deposit, Repay, RepayAll, TakeOut, TakeAllOut, LendOut, CloseBalance, AccrueAt, CollectFees, SettleEmissions,
         WithdrawEmissions, Liquidate, IfHealthy, SameSettings, Open;
    match action
    case ADeposit(a, pk, amount, fee, now) => PayingInSame(m, a, pk, amount, fee, now);
    case ARepay(a, pk, amount, fee, now) => PayingInSame(m, a, pk, amount, fee, now);
    case ARepayAll(a, pk, fee, now) => PayingInSame(m, a, pk, 0, fee, now);
    case AWithdraw(a, pk, amount, fee, feeds, now) =>
      TakingOutSame(m, a, pk, amount, fee, now);
      IfHealthyIs(TakeOut(m, a, pk, amount, fee, now).value, a, feeds);
    case AWithdrawAll(a, pk, feeds, now) =>
      TakingOutSame(m, a, pk, 0, NO_FEE, now);
      IfHealthyIs(TakeAllOut(m, a, pk, now).value, a, feeds);
    case ABorrow(a, pk, amount, fee, feeds, now) =>
      LendingSame(m, a, pk, amount, fee, now);
      IfHealthyIs(LendOut(m, a, pk, amount, fee, now).value, a, feeds);
    case ACloseBalance(a, pk, now) => UpkeepSame(m, a, pk, now);
    case AAccrue(pk, now) => AccrueSame(m, pk, now);
    case ACollectFees(pk) => UpkeepSame(m, 0, pk, 0);
    case ASettleEmissions(a, pk, now) => UpkeepSame(m, a, pk, now);
    case AWithdrawEmissions(a, pk, now) => UpkeepSame(m, a, pk, now);
    case ALiquidate(a, liquidatee, assetPk, pk, amount, feeds, now) =>
      LiquidateSame(m, a, liquidatee, assetPk, pk, amount, feeds, now);
  }

  /** A paused bank is still: no user moves tokens in or out of it, and none of its debts is
      liquidated or written off. */
  lemma PausedBankIsStill(m: Market, action: Action, pk: nat)
    requires MovesTokens(action, pk) && pk in m.pools && m.pools[pk].bank.config.operationalState == Paused
    ensures Process(m, action).Err?
  {
    hide CheckBankrupt, Exposures, InFlashloan, SettleBadDebt, Deposit, Repay, RepayAll, Withdraw, WithdrawAll, Borrow,
         Liquidate, SameSettings;
    if Process(m, action).Ok? {
      if action.ABankruptcy? {
        BankruptcyDisables(m, action.a, action.pk, action.insurance, action.fee, action.now);
      } else {
        ProcessSame(m, action);
      }
    }
  }

  /** What an accepted action leaves of the setup of bank `k`. */
  function SetupAfter(s: Setup, action: Action, k: nat): Setup {
    match action
    case AConfigure(pk, config) => if k == pk then s.(config := config) else s
    case ASetupEmissions(pk, lending, borrowing, rate, _) =>
      if k == pk then s.(emitting := true, lending := lending, borrowing := borrowing, rate := rate) else s
    case AUpdateEmissions(pk, flags, newRate, _) =>
      if k != pk then s else
      var t := if flags.Some? then s.(lending := flags.value.0, borrowing := flags.value.1) else s;
      if newRate.Some? then t.(rate := newRate.value) else t
    case _ => s
  }

  /** What it leaves of the flags of account `c`. */
  function FlagsAfter(acct: Account, action: Action, c: nat): (bool, bool) {
    if action.ABankruptcy? && action.a == c then (true, acct.inFlashloan)
    else if action.AStartFlashloan? && action.a == c then (acct.disabled, true)
    else if action.AEndFlashloan? && action.a == c then (acct.disabled, false)
    else (acct.disabled, acct.inFlashloan)
  }

  predicate FlagsMoved(m: Market, m': Market, action: Action) {
    && |m.accounts| <= |m'.accounts|
    && forall c :: 0 <= c < |m.accounts| ==>
         (m'.accounts[c].disabled, m'.accounts[c].inFlashloan) == FlagsAfter(m.accounts[c], action, c)
  }

  predicate SetupsMoved(m: Market, m': Market, action: Action) {
    && m.pools.Keys <= m'.pools.Keys
    && (forall k :: k in m.pools ==> SetupOf(m'.pools[k].bank) == SetupAfter(SetupOf(m.pools[k].bank), action, k))
    && m'.fees == if action.ASetProgramFees? then action.fees else m.fees
  }

  lemma SameIsMoved(m: Market, m': Market, action: Action)
    requires SameSettings(m, m') && SetsNothing(action)
    ensures FlagsMoved(m, m', action) && SetupsMoved(m, m', action)
  {
    hide SetupOf;
  }

  /** Setting up banks. */
  lemma BankSettersMove(m: Market, action: Action)
    requires action.ASetupEmissions? || action.AUpdateEmissions? || action.AConfigure? || action.AAddBank?
    requires Process(m, action).Ok?
    ensures FlagsMoved(m, Process(m, action).value, action) && SetupsMoved(m, Process(m, action).value, action)
    ensures Admits(m, action)
    ensures action.AAddBank? ==>
              && action.pk in Process(m, action).value.pools
              && SetupOf(Process(m, action).value.pools[action.pk].bank)
                 == Setup(action.config, action.decimals, false, false, false, 0)
  {
    hide BankConfig.Valid, Deposit, Repay, RepayAll, Withdraw, WithdrawAll, Borrow, Liquidate, HandleBankruptcy,
         CloseBalance, AccrueAt, CollectFees, SettleEmissions, WithdrawEmissions, StartFlashloan, EndFlashloan,
         FlagsAfter;
    forall c | 0 <= c < |m.accounts|
      ensures FlagsAfter(m.accounts[c], action, c) == (m.accounts[c].disabled, m.accounts[c].inFlashloan)
    {
      NoFlag(m.accounts[c], action, c);
    }
  }

  lemma NoFlag(acct: Account, action: Action, c: nat)
    requires !action.ABankruptcy? && !action.AStartFlashloan? && !action.AEndFlashloan?
    ensures FlagsAfter(acct, action, c) == (acct.disabled, acct.inFlashloan)
  {
  }

  /** Setting up accounts and fees. */
  lemma GroupSettersMove(m: Market, action: Action)
    requires action.ACreateAccount? || action.ASetProgramFees? || action.AStartFlashloan? || action.AEndFlashloan?
    requires Process(m, action).Ok?
    ensures FlagsMoved(m, Process(m, action).value, action) && SetupsMoved(m, Process(m, action).value, action)
  {
    hide CheckInitHealth, Exposures, EmptyBalances, SetupOf, Deposit, Repay, RepayAll, Withdraw, WithdrawAll,
         Borrow, Liquidate, HandleBankruptcy, CloseBalance, AccrueAt, CollectFees, SettleEmissions, WithdrawEmissions;
  }

  /** Configurations must be valid, banks new, and emissions are set up once before they are
      updated. */
  predicate Admits(m: Market, action: Action) {
    match action
    case AAddBank(pk, config, _, _) => pk !in m.pools && config.Valid()
    case AConfigure(pk, config) => pk in m.pools && config.Valid()
    case ASetupEmissions(pk, _, _, _, _) => pk in m.pools && !m.pools[pk].bank.emissionsSetUp
    case AUpdateEmissions(pk, _, _, _) => pk in m.pools && m.pools[pk].bank.emissionsSetUp
    case _ => true
  }

  lemma BankruptcyMoves(m: Market, action: Action)
    requires action.ABankruptcy? && Process(m, action).Ok?
    ensures FlagsMoved(m, Process(m, action).value, action) && SetupsMoved(m, Process(m, action).value, action)
  {
    hide CheckBankrupt, Exposures, InFlashloan, SettleBadDebt, SetupOf;
    BankruptcyDisables(m, action.a, action.pk, action.insurance, action.fee, action.now);
  }

  /** Every accepted action sets what it is meant to set and nothing else: a bankruptcy
      disables its account, flashloans flag theirs, and new settings of banks
      take effect as given. */
  lemma SettingsMoveOnlySo(m: Market, action: Action)
    requires Process(m, action).Ok?
    ensures FlagsMoved(m, Process(m, action).value, action) && SetupsMoved(m, Process(m, action).value, action)
    ensures Admits(m, action)
    ensures action.AAddBank? ==>
              && action.pk in Process(m, action).value.pools
              && SetupOf(Process(m, action).value.pools[action.pk].bank)
                 == Setup(action.config, action.decimals, false, false, false, 0)
  {
    if SetsNothing(action) {
      hide Process, FlagsMoved, SetupsMoved, SameSettings;
      ProcessSame(m, action);
      SameIsMoved(m, Process(m, action).value, action);
    } else if action.ABankruptcy? {
      hide Process, FlagsMoved, SetupsMoved;
      BankruptcyMoves(m, action);
    } else {
      hide Process, FlagsMoved, SetupsMoved, Admits, SetupOf;
      if action.ASetupEmissions? || action.AUpdateEmissions? || action.AConfigure? || action.AAddBank? {
        BankSettersMove(m, action);
      } else {
        GroupSettersMove(m, action);
      }
    }
  }

  // -------------------------------------------------------------- every run

  /** What only the owner of an account does with it. */
  predicate ByOwner(action: Action, a: nat) {
    && (action.ADeposit? || action.ARepay? || action.ARepayAll? || action.AWithdraw? || action.AWithdrawAll?
        || action.ABorrow? || action.ACloseBalance? || action.AWithdrawEmissions? || action.AStartFlashloan?)
    && action.a == a
  }

  lemma DisabledIsShut(m: Market, a: nat, action: Action)
    requires a < |m.accounts| && m.accounts[a].disabled && ByOwner(action, a)
    ensures Process(m, action).Err?
  {
    hide AccrueAt, PayIn, PayOut, TakeAllAt, PayAllAt, CloseAt, FillVault, DrainVault, IfHealthy, LendTokens,
         PositionAt, PreFee;
  }

  /** A bankruptcy is for good: after any further run its account refuses its owner
      everything but the end of a flashloan. */
  lemma {:induction false} BankruptIsShutForGood(m: Market, a: nat, actions: seq<Action>, action: Action)
    requires a < |m.accounts| && m.accounts[a].disabled && ByOwner(action, a)
    ensures a < |Run(m, actions).accounts| && Run(m, actions).accounts[a].disabled
    ensures Process(Run(m, actions), action).Err?
    decreases |actions|
  {
    hide Process;
    if actions == [] {
      DisabledIsShut(m, a, action);
    } else {
      if Process(m, actions[0]).Ok? {
        SettingsMoveOnlySo(m, actions[0]);
      }
      BankruptIsShutForGood(Step(m, actions[0]), a, actions[1..], action);
    }
  }

  /** A flashloan, once started, is over only by an end that was accepted. */
  lemma {:induction false} FlashloanIsEnded(m: Market, a: nat, actions: seq<Action>) returns (i: nat)
    requires a < |m.accounts| && m.accounts[a].inFlashloan
    requires a < |Run(m, actions).accounts| ==> !Run(m, actions).accounts[a].inFlashloan
    ensures i < |actions| && actions[i].AEndFlashloan? && actions[i].a == a
    ensures Process(Run(m, actions[..i]), actions[i]).Ok?
    decreases |actions|
  {
    hide Process;
    var action := actions[0];
    assert actions[..0] == [];
    if Process(m, action).Ok? {
      SettingsMoveOnlySo(m, action);
    }
    if action.AEndFlashloan? && action.a == a && Process(m, action).Ok? {
      i := 0;
    } else {
      var j := FlashloanIsEnded(Step(m, action), a, actions[1..]);
      i := j + 1;
      assert actions[..i][1..] == actions[1..][..j];
    }
  }
}
