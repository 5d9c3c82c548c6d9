/** Safety of every run of the program. */
module Runs {
  import opened FixedPoint
  import opened Interest
  import opened Banks
  import opened TransferFees
  import opened Prices
  import opened Risk
  import opened Ledger
  import opened Instructions
  import opened Effects
  import opened Conservation

  /** What the environment guarantees of an action: amounts are 64-bit and transfer
      fees at most 100%, as the token programs see to.  And a loss is socialized
      only if deposits bear it: see `BankruptcyKeepsBooksIff`. */
  predicate Permitted(m: Market, action: Action) {
    match action
    case ADeposit(_, _, amount, fee, _) => amount <= U64_MAX && FeeOk(fee)
    case ARepay(_, _, amount, fee, _) => amount <= U64_MAX && FeeOk(fee)
    case ARepayAll(_, _, fee, _) => FeeOk(fee)
    case ABankruptcy(a, pk, insurance, fee, feeds, now) =>
      FeeOk(fee) && (HandleBankruptcy(m, a, pk, insurance, fee, feeds, now).Ok? ==>
                       DepositsCover(m, a, pk, insurance, fee, now))
    case _ => true
  }

  /** Saturation drops nothing of the fee of a borrow: see `FeeConservesIff`. */
  predicate Books(m: Market, action: Action) {
    action.ABorrow? && Process(m, action).Ok? ==>
      BorrowBooksFee(m, action.pk, action.amount, action.fee, action.now)
  }

  predicate Touches(action: Action, k: nat) {
    match action
    case ALiquidate(_, _, assetPk, pk, _, _, _) => k == assetPk || k == pk
    case ACreateAccount => false
    case ASetProgramFees(_) => false
    case AStartFlashloan(_) => false
    case AEndFlashloan(_, _) => false
    case _ => k == action.pk
  }

  /** The most an action can lower the net position of bank `k` by. */
  function LossBound(m: Market, action: Action, k: nat): int
    requires k in m.pools
  {
    if !Touches(action, k) then 0 else
    match action
    case ADeposit(_, _, _, _, now) => CreditAt(m, k, now)
    case ARepay(_, _, _, _, now) => CreditAt(m, k, now)
    case ARepayAll(_, _, _, now) => CreditAt(m, k, now) + ONE - 1
    case AWithdraw(_, _, _, _, _, now) => CreditAt(m, k, now) + Ulps(AccruedBank(m, k, now)) - 1
    case AWithdrawAll(_, _, _, now) => CreditAt(m, k, now)
    case ABorrow(_, _, _, _, _, now) => CreditAt(m, k, now) + Ulps(AccruedBank(m, k, now)) - 1
    case ACloseBalance(_, _, now) => CreditAt(m, k, now)
    case AAccrue(_, now) => CreditAt(m, k, now)
    case ABankruptcy(_, _, _, _, _, now) => CreditAt(m, k, now)
    case ALiquidate(_, _, _, _, _, _, now) => CreditAt(m, k, now) + Ulps(AccruedBank(m, k, now)) - 1
    case _ => 0
  }

  /** The most an action can raise it by. */
  function GainBound(m: Market, action: Action, k: nat): int
    requires k in m.pools
  {
    if !Touches(action, k) then 0 else
    match action
    case ADeposit(_, _, _, _, now) => DebitAt(m, k, now) + Ulps(AccruedBank(m, k, now)) - 1
    case ARepay(_, _, _, _, now) => DebitAt(m, k, now) + Ulps(AccruedBank(m, k, now)) - 1
    case ARepayAll(_, _, _, now) => DebitAt(m, k, now)
    case AWithdraw(_, _, _, _, _, now) => DebitAt(m, k, now)
    case AWithdrawAll(_, _, _, now) => DebitAt(m, k, now) + ONE - 1
    case ABorrow(_, _, _, _, _, now) => DebitAt(m, k, now)
    case ACloseBalance(_, _, now) => DebitAt(m, k, now)
    case AAccrue(_, now) => DebitAt(m, k, now)
    case ABankruptcy(_, _, _, _, _, now) =>
      var b := AccruedBank(m, k, now);
      DebitAt(m, k, now) + ONE * ONE + b.totalAssetShares + ONE + Ulps(b)
    case ALiquidate(_, _, _, _, _, _, now) => DebitAt(m, k, now) + Ulps(AccruedBank(m, k, now)) - 1
    case _ => 0
  }

  /** Pool `p` becomes `p'`: its net position, if `booked`, moves by at most `loss`
      down and `gain` up, debts do not lose value, deposits do not unless `lossy`,
      and closing balances drops only dust. */
  predicate Becomes(p: Pool, p': Pool, loss: int, gain: int, lossy: bool, booked: bool) {
    && (booked ==> -loss <= Net(p') - Net(p) <= gain)
    && p.bank.liabilityShareValue <= p'.bank.liabilityShareValue
    && (!lossy ==> p.bank.assetShareValue <= p'.bank.assetShareValue)
    && DropsDust(p, p')
  }

  predicate PoolsBecome(m: Market, m': Market, action: Action) {
    && Inv(m') && m.pools.Keys <= m'.pools.Keys
    && (forall k :: k in m.pools ==>
          Becomes(m.pools[k], m'.pools[k], LossBound(m, action, k), GainBound(m, action, k), action.ABankruptcy?,
                  Books(m, action)))
    && (forall k :: k in m'.pools && k !in m.pools ==> Net(m'.pools[k]) == 0)
  }

  // ------------------------------------------------------------- one action

  lemma NothingDropped(p: Pool, p': Pool)
    requires SameDrops(p, p')
    ensures DropsDust(p, p')
  {
  }

  lemma FromMoves(m: Market, m': Market, pk: nat, action: Action, low: int, high: int)
    requires Inv(m') && pk in m.pools && Moves(m, m', pk, low, high)
    requires Books(m, action) ==> -LossBound(m, action, pk) <= low && high <= GainBound(m, action, pk)
    requires DropsDust(m.pools[pk], m'.pools[pk])
    requires forall k :: Touches(action, k) ==> k == pk
    ensures PoolsBecome(m, m', action)
  {
    hide Inv, Net, LossBound, GainBound, Touches, Books;
    forall k | k in m.pools
      ensures Becomes(m.pools[k], m'.pools[k], LossBound(m, action, k), GainBound(m, action, k), action.ABankruptcy?,
                  Books(m, action))
    {
      if k != pk {
        Untouched(m, action, k);
        NothingDropped(m.pools[k], m'.pools[k]);
      }
    }
  }

  lemma Untouched(m: Market, action: Action, k: nat)
    requires k in m.pools && !Touches(action, k)
    ensures LossBound(m, action, k) == 0 && GainBound(m, action, k) == 0
  {
  }

  lemma FromEvolves(m: Market, m': Market, pk: nat, action: Action, low: int, high: int)
    requires Inv(m') && pk in m.pools && Evolves(m, m', pk, low, high)
    requires Books(m, action) ==> -LossBound(m, action, pk) <= low && high <= GainBound(m, action, pk)
    requires forall k :: Touches(action, k) ==> k == pk
    ensures PoolsBecome(m, m', action)
  {
    hide Inv, Net, LossBound, GainBound, Touches, Books;
    NothingDropped(m.pools[pk], m'.pools[pk]);
    FromMoves(m, m', pk, action, low, high);
  }

  /** Instructions that leave the pools alone. */
  lemma FromSamePools(m: Market, m': Market, action: Action)
    requires Inv(m') && m'.pools == m.pools && forall k :: !Touches(action, k)
    ensures PoolsBecome(m, m', action)
  {
    hide Inv, Net, LossBound, GainBound, Touches;
    forall k | k in m.pools
      ensures Becomes(m.pools[k], m'.pools[k], LossBound(m, action, k), GainBound(m, action, k), action.ABankruptcy?,
                  Books(m, action))
    {
      Untouched(m, action, k);
      NothingDropped(m.pools[k], m'.pools[k]);
    }
  }

  lemma IfHealthyIs(m: Market, a: nat, feeds: map<nat, Feed>)
    requires IfHealthy(m, a, feeds).Ok?
    ensures IfHealthy(m, a, feeds).value == m
  {
    hide CheckInitHealth, Exposures, InFlashloan;
  }

  /** Deposits, repayments, withdrawals, borrows and closes. */
  lemma BalanceActionBecomes(m: Market, action: Action)
    requires Inv(m) && Permitted(m, action) && Process(m, action).Ok?
    requires action.ADeposit? || action.ARepay? || action.ARepayAll? || action.AWithdraw? || action.AWithdrawAll?
             || action.ABorrow? || action.ACloseBalance?
    ensures PoolsBecome(m, Process(m, action).value, action)
  {
    hide Inv, Net, Deposit, Repay, RepayAll, TakeOut, TakeAllOut, LendOut, CloseBalance, IfHealthy, DropsDust, Evolves,
         Moves, PoolsBecome, CreditAt, DebitAt, AccruedBank, Ulps, FeeOk, BorrowBooksFee;
    var m' := Process(m, action).value;
    match action
    case ADeposit(a, pk, amount, fee, now) =>
      DepositEffect(m, a, pk, amount, fee, now);
      FromEvolves(m, m', pk, action, -LossBound(m, action, pk), GainBound(m, action, pk));
    case ARepay(a, pk, amount, fee, now) =>
      RepayEffect(m, a, pk, amount, fee, now);
      FromEvolves(m, m', pk, action, -LossBound(m, action, pk), GainBound(m, action, pk));
    case ARepayAll(a, pk, fee, now) =>
      RepayAllEffect(m, a, pk, fee, now);
      FromMoves(m, m', pk, action, -LossBound(m, action, pk), GainBound(m, action, pk));
    case AWithdraw(a, pk, amount, fee, feeds, now) =>
      TakeOutEffect(m, a, pk, amount, fee, now);
      IfHealthyIs(TakeOut(m, a, pk, amount, fee, now).value, a, feeds);
      FromEvolves(m, m', pk, action, -LossBound(m, action, pk), GainBound(m, action, pk));
    case AWithdrawAll(a, pk, feeds, now) =>
      TakeAllOutEffect(m, a, pk, now);
      IfHealthyIs(TakeAllOut(m, a, pk, now).value, a, feeds);
      FromMoves(m, m', pk, action, -LossBound(m, action, pk), GainBound(m, action, pk));
    case ABorrow(a, pk, amount, fee, feeds, now) =>
      LendOutEffect(m, a, pk, amount, fee, now);
      IfHealthyIs(LendOut(m, a, pk, amount, fee, now).value, a, feeds);
      if Books(m, action) {
        FromEvolves(m, m', pk, action, -LossBound(m, action, pk), GainBound(m, action, pk));
      } else {
        var low, high :| Evolves(m, m', pk, low, high);
        FromEvolves(m, m', pk, action, low, high);
      }
    case ACloseBalance(a, pk, now) =>
      CloseBalanceEffect(m, a, pk, now);
      FromMoves(m, m', pk, action, -LossBound(m, action, pk), GainBound(m, action, pk));
  }

  /** Interest, fee collection, emissions and configuration. */
  lemma BankActionBecomes(m: Market, action: Action)
    requires Inv(m) && Permitted(m, action) && Process(m, action).Ok?
    requires action.AAccrue? || action.ACollectFees? || action.ASettleEmissions? || action.AWithdrawEmissions?
             || action.ASetupEmissions? || action.AUpdateEmissions? || action.AConfigure?
    ensures PoolsBecome(m, Process(m, action).value, action)
  {
    hide Inv, Net, AccrueAt, CollectFees, SettleEmissions, WithdrawEmissions, SetupEmissions, UpdateEmissions,
         ConfigureBank, Evolves, Moves, PoolsBecome, CreditAt, DebitAt, AccruedBank, Ulps;
    var m' := Process(m, action).value;
    match action
    case AAccrue(pk, now) =>
      AccrueEffect(m, pk, now);
      FromEvolves(m, m', pk, action, -LossBound(m, action, pk), GainBound(m, action, pk));
    case ACollectFees(pk) =>
      CollectFeesEffect(m, pk);
      FromEvolves(m, m', pk, action, -LossBound(m, action, pk), GainBound(m, action, pk));
    case ASettleEmissions(a, pk, now) =>
      SettleEmissionsEffect(m, a, pk, now);
      FromEvolves(m, m', pk, action, -LossBound(m, action, pk), GainBound(m, action, pk));
    case AWithdrawEmissions(a, pk, now) =>
      WithdrawEmissionsEffect(m, a, pk, now);
      FromEvolves(m, m', pk, action, -LossBound(m, action, pk), GainBound(m, action, pk));
    case ASetupEmissions(pk, lending, borrowing, rate, total) =>
      SetupEmissionsEffect(m, pk, lending, borrowing, rate, total);
      FromEvolves(m, m', pk, action, -LossBound(m, action, pk), GainBound(m, action, pk));
    case AUpdateEmissions(pk, flags, rate, additional) =>
      UpdateEmissionsEffect(m, pk, flags, rate, additional);
      FromEvolves(m, m', pk, action, -LossBound(m, action, pk), GainBound(m, action, pk));
    case AConfigure(pk, config) =>
      ConfigureEffect(m, pk, config);
      FromEvolves(m, m', pk, action, -LossBound(m, action, pk), GainBound(m, action, pk));
  }

  lemma AccrueEffect(m: Market, pk: nat, now: nat)
    requires Inv(m) && AccrueAt(m, pk, now).Ok?
    ensures pk in m.pools && Inv(AccrueAt(m, pk, now).value)
    ensures Evolves(m, AccrueAt(m, pk, now).value, pk, -CreditAt(m, pk, now), DebitAt(m, pk, now))
  {
    AccrueAtEffect(m, pk, now);
  }

  /** New banks and accounts, fees of the group, and flashloans. */
  lemma GroupActionBecomes(m: Market, action: Action)
    requires Inv(m) && Permitted(m, action) && Process(m, action).Ok?
    requires action.AAddBank? || action.ACreateAccount? || action.ASetProgramFees? || action.AStartFlashloan?
             || action.AEndFlashloan?
    ensures PoolsBecome(m, Process(m, action).value, action)
  {
    hide Net, AddBank, CreateAccount, IfHealthy, PoolsBecome, AccountOk, PoolOk, Agrees;
    var m' := Process(m, action).value;
    match action
    case AAddBank(pk, config, decimals, now) =>
      AddBankBecomes(m, pk, config, decimals, now);
    case ACreateAccount =>
      CreateAccountKeepsInv(m);
      assert m'.pools == m.pools by { hide Inv; assert m'.pools == CreateAccount(m).value.pools; CreateAccountPools(m); }
      FromSamePools(m, m', action);
    case ASetProgramFees(fees) =>
      FeesKeepInv(m, fees);
      FromSamePools(m, m', action);
    case AStartFlashloan(a) =>
      FlagsKeepInv(m, a, m.accounts[a].(inFlashloan := true));
      FromSamePools(m, m', action);
    case AEndFlashloan(a, feeds) =>
      FlagsKeepInv(m, a, m.accounts[a].(inFlashloan := false));
      IfHealthyIs(m.(accounts := m.accounts[a := m.accounts[a].(inFlashloan := false)]), a, feeds);
      FromSamePools(m, m', action);
  }

  lemma CreateAccountPools(m: Market)
    ensures CreateAccount(m).value.pools == m.pools
  {
  }

  lemma FeesKeepInv(m: Market, fees: ProgramFees)
    requires Inv(m)
    ensures Inv(m.(fees := fees))
  {
    var m' := m.(fees := fees);
    forall k | k in m'.pools
      ensures PoolOk(m'.pools[k]) && Agrees(m', k)
    {
      assert PoolOk(m.pools[k]) && Agrees(m, k);
    }
  }

  lemma AddBankBecomes(m: Market, pk: nat, config: BankConfig, decimals: nat, now: nat)
    requires Inv(m) && AddBank(m, pk, config, decimals, now).Ok?
    ensures PoolsBecome(m, AddBank(m, pk, config, decimals, now).value, AAddBank(pk, config, decimals, now))
  {
    hide Inv, Net, AddBank, LossBound, GainBound;
    var action, m' := AAddBank(pk, config, decimals, now), AddBank(m, pk, config, decimals, now).value;
    AddBankKeepsInv(m, pk, config, decimals, now);
    forall k | k in m.pools
      ensures Becomes(m.pools[k], m'.pools[k], LossBound(m, action, k), GainBound(m, action, k), action.ABankruptcy?,
                  Books(m, action))
    {
      Untouched(m, action, k);
      NothingDropped(m.pools[k], m'.pools[k]);
    }
  }

  // ------------------------------------------- bankruptcy and liquidation

  lemma BankruptcyBecomes(m: Market, a: nat, pk: nat, insurance: nat, fee: TransferFee, feeds: map<nat, Feed>, now: nat)
    requires Inv(m) && FeeOk(fee) && DepositsCover(m, a, pk, insurance, fee, now)
    requires HandleBankruptcy(m, a, pk, insurance, fee, feeds, now).Ok?
    ensures PoolsBecome(m, HandleBankruptcy(m, a, pk, insurance, fee, feeds, now).value,
                        ABankruptcy(a, pk, insurance, fee, feeds, now))
  {
    hide Inv, Net, SettleBadDebt, CheckBankrupt, Exposures, InFlashloan, CreditAt, DebitAt, AccruedBank, Ulps,
         DepositsCover;
    var action := ABankruptcy(a, pk, insurance, fee, feeds, now);
    var m' := SettleBadDebt(m, a, pk, insurance, fee, now).value;
    SettleBadDebtEffect(m, a, pk, insurance, fee, now);
    forall k | k in m.pools
      ensures Becomes(m.pools[k], m'.pools[k], LossBound(m, action, k), GainBound(m, action, k), action.ABankruptcy?,
                  Books(m, action))
    {
      NothingDropped(m.pools[k], m'.pools[k]);
    }
  }

  /** Liquidation touches two banks: interest on both, then the swap. */
  lemma AccrueBothEffect(m: Market, assetPk: nat, liabilityPk: nat, now: nat)
    requires Inv(m) && assetPk != liabilityPk && AccrueBoth(m, assetPk, liabilityPk, now).Ok?
    ensures assetPk in m.pools && liabilityPk in m.pools
    ensures var m' := AccrueBoth(m, assetPk, liabilityPk, now).value;
            && Inv(m')
            && Drifts(m, m', assetPk, -CreditAt(m, assetPk, now), DebitAt(m, assetPk, now))
            && Drifts(m, m', liabilityPk, -CreditAt(m, liabilityPk, now), DebitAt(m, liabilityPk, now))
            && m'.pools[assetPk].bank == AccruedBank(m, assetPk, now)
            && m'.pools[liabilityPk].bank == AccruedBank(m, liabilityPk, now)
            && (forall k :: k in m.pools && k != assetPk && k != liabilityPk ==> m'.pools[k] == m.pools[k])
  {
    hide Inv, Net, AccrualCredit, AccrualDebit, BankState.AccrueInterest, AfterInterest;
    AccrueAtEffect(m, assetPk, now);
    var m1 := AccrueAt(m, assetPk, now).value;
    AccrueAtEffect(m1, liabilityPk, now);
  }

  lemma LiquidationBecomes(m: Market, liquidator: nat, liquidatee: nat, assetPk: nat, liabilityPk: nat, amount: nat,
                           feeds: map<nat, Feed>, now: nat)
    requires Inv(m) && Liquidate(m, liquidator, liquidatee, assetPk, liabilityPk, amount, feeds, now).Ok?
    ensures PoolsBecome(m, Liquidate(m, liquidator, liquidatee, assetPk, liabilityPk, amount, feeds, now).value,
                        ALiquidate(liquidator, liquidatee, assetPk, liabilityPk, amount, feeds, now))
  {
    hide Inv, Net, AccrueBoth, LiquidationAmounts, SwapPositions, CheckPreLiquidation, CheckPostLiquidation, Exposures,
         InFlashloan, IfHealthy, CreditAt, DebitAt, AccruedBank, Ulps, Drifts, PoolsBecome;
    var m1 := AccrueBoth(m, assetPk, liabilityPk, now).value;
    AccrueBothEffect(m, assetPk, liabilityPk, now);
    var (paid, received) := LiquidationAmounts(m1, assetPk, liabilityPk, amount, feeds).value;
    LiquidationAmountsOrdered(m1, assetPk, liabilityPk, amount, feeds);
    DriftsKeys(m, m1, assetPk, -CreditAt(m, assetPk, now), DebitAt(m, assetPk, now));
    var m2 := SwapPositions(m1, liquidator, liquidatee, assetPk, liabilityPk, amount, paid, received, now).value;
    SwapPositionsEffect(m1, liquidator, liquidatee, assetPk, liabilityPk, amount, paid, received, now);
    DriftsKeys(m1, m2, assetPk, -Ulps(m1.pools[assetPk].bank) + 1, Ulps(m1.pools[assetPk].bank) - 1);
    IfHealthyIs(m2, liquidator, feeds);
    TwoBanksBecome(m, m1, m2, ALiquidate(liquidator, liquidatee, assetPk, liabilityPk, amount, feeds, now));
  }

  lemma DriftsKeys(m: Market, m': Market, k: nat, lo: int, hi: int)
    requires k in m.pools && Drifts(m, m', k, lo, hi)
    ensures m'.pools.Keys == m.pools.Keys
  {
    hide Net;
  }

  lemma TwoBanksBecome(m: Market, m1: Market, m2: Market, action: Action)
    requires action.ALiquidate? && action.assetPk in m.pools && action.pk in m.pools && Inv(m2)
    requires m1.pools.Keys == m.pools.Keys
    requires forall k :: k == action.assetPk || k == action.pk ==>
               && Drifts(m, m1, k, -CreditAt(m, k, action.now), DebitAt(m, k, action.now))
               && m1.pools[k].bank == AccruedBank(m, k, action.now)
               && Drifts(m1, m2, k, -Ulps(m1.pools[k].bank) + 1, Ulps(m1.pools[k].bank) - 1)
    requires forall k :: k in m.pools && k != action.assetPk && k != action.pk ==>
               k in m2.pools && m1.pools[k] == m.pools[k] && m2.pools[k] == m1.pools[k]
    ensures PoolsBecome(m, m2, action)
  {
    hide Inv, Net, CreditAt, DebitAt, AccruedBank, Ulps, Books;
    var now := action.now;
    assert Drifts(m1, m2, action.pk, -Ulps(m1.pools[action.pk].bank) + 1, Ulps(m1.pools[action.pk].bank) - 1);
    forall k | k in m.pools
      ensures Becomes(m.pools[k], m2.pools[k], LossBound(m, action, k), GainBound(m, action, k), action.ABankruptcy?,
                  Books(m, action))
    {
      if k == action.assetPk || k == action.pk {
        var u := Ulps(m1.pools[k].bank);
        DriftsThen(m, m1, m2, k, -CreditAt(m, k, now), DebitAt(m, k, now), -u + 1, u - 1);
      }
      NothingDropped(m.pools[k], m2.pools[k]);
    }
  }

  // --------------------------------------------------------- the step theorem

  /** Every accepted instruction keeps the ledger invariant, and, if it books its
      fee, moves the net position of every bank by no more than its bound. */
  lemma ProcessBecomes(m: Market, action: Action)
    requires Inv(m) && Permitted(m, action) && Process(m, action).Ok?
    ensures PoolsBecome(m, Process(m, action).value, action)
  {
    hide Inv, PoolsBecome, HandleBankruptcy, Liquidate, Deposit, Repay, RepayAll, Withdraw, WithdrawAll, Borrow,
         CloseBalance, AccrueAt, CollectFees, SettleEmissions, WithdrawEmissions, SetupEmissions, UpdateEmissions,
         ConfigureBank, AddBank, CreateAccount, StartFlashloan, EndFlashloan, BorrowBooksFee, DepositsCover, FeeOk;
    match action
    case ABankruptcy(a, pk, insurance, fee, feeds, now) =>
      BankruptcyBecomes(m, a, pk, insurance, fee, feeds, now);
    case ALiquidate(a, liquidatee, assetPk, pk, amount, feeds, now) =>
      LiquidationBecomes(m, a, liquidatee, assetPk, pk, amount, feeds, now);
    case AAddBank(_, _, _, _) => GroupActionBecomes(m, action);
    case ACreateAccount => GroupActionBecomes(m, action);
    case ASetProgramFees(_) => GroupActionBecomes(m, action);
    case AStartFlashloan(_) => GroupActionBecomes(m, action);
    case AEndFlashloan(_, _) => GroupActionBecomes(m, action);
    case ADeposit(_, _, _, _, _) => BalanceActionBecomes(m, action);
    case ARepay(_, _, _, _, _) => BalanceActionBecomes(m, action);
    case ARepayAll(_, _, _, _) => BalanceActionBecomes(m, action);
    case AWithdraw(_, _, _, _, _, _) => BalanceActionBecomes(m, action);
    case AWithdrawAll(_, _, _, _) => BalanceActionBecomes(m, action);
    case ABorrow(_, _, _, _, _, _) => BalanceActionBecomes(m, action);
    case ACloseBalance(_, _, _) => BalanceActionBecomes(m, action);
    case _ => BankActionBecomes(m, action);
  }

  // -------------------------------------------------------------- every run

  /** Every action of the run is permitted where it is run. */
  predicate PermittedRun(m: Market, actions: seq<Action>)
    decreases |actions|
  {
    actions == [] || (Permitted(m, actions[0]) && PermittedRun(Step(m, actions[0]), actions[1..]))
  }

  /** And every fee of a borrow is booked in full. */
  predicate BookedRun(m: Market, actions: seq<Action>)
    decreases |actions|
  {
    actions == [] || (Books(m, actions[0]) && BookedRun(Step(m, actions[0]), actions[1..]))
  }

  function NetAt(m: Market, k: nat): int {
    if k in m.pools then Net(m.pools[k]) else 0
  }

  function StepLoss(m: Market, action: Action, k: nat): int {
    if k in m.pools && Process(m, action).Ok? then LossBound(m, action, k) else 0
  }

  function StepGain(m: Market, action: Action, k: nat): int {
    if k in m.pools && Process(m, action).Ok? then GainBound(m, action, k) else 0
  }

  function TotalLoss(m: Market, actions: seq<Action>, k: nat): int
    decreases |actions|
  {
    if actions == [] then 0 else StepLoss(m, actions[0], k) + TotalLoss(Step(m, actions[0]), actions[1..], k)
  }

  function TotalGain(m: Market, actions: seq<Action>, k: nat): int
    decreases |actions|
  {
    if actions == [] then 0 else StepGain(m, actions[0], k) + TotalGain(Step(m, actions[0]), actions[1..], k)
  }

  lemma StepKeeps(m: Market, action: Action, k: nat)
    requires Inv(m) && Permitted(m, action)
    ensures var m' := Step(m, action);
            && Inv(m') && m.pools.Keys <= m'.pools.Keys
            && (Books(m, action) ==> -StepLoss(m, action, k) <= NetAt(m', k) - NetAt(m, k) <= StepGain(m, action, k))
            && (k in m.pools ==>
                  && m.pools[k].bank.liabilityShareValue <= m'.pools[k].bank.liabilityShareValue
                  && (!action.ABankruptcy? ==> m.pools[k].bank.assetShareValue <= m'.pools[k].bank.assetShareValue)
                  && DropsDust(m.pools[k], m'.pools[k]))
  {
    hide Process, Permitted, Books, Inv, Net, LossBound, GainBound, DropsDust;
    if Process(m, action).Ok? {
      ProcessBecomes(m, action);
    } else if k in m.pools {
      NothingDropped(m.pools[k], m.pools[k]);
    }
  }

  /** Over every run the books agree with the balances. */
  lemma {:induction false} RunKeepsInv(m: Market, actions: seq<Action>)
    requires Inv(m) && PermittedRun(m, actions)
    ensures Inv(Run(m, actions))
    decreases |actions|
  {
    hide Inv, Permitted, Books, Step, NetAt, StepLoss, StepGain, DropsDust;
    if actions != [] {
      StepKeeps(m, actions[0], 0);
      RunKeepsInv(Step(m, actions[0]), actions[1..]);
    }
  }

  /** And the vault of every bank stays within the summed rounding of what the bank
      owes. */
  lemma {:induction false} RunConserves(m: Market, actions: seq<Action>, k: nat)
    requires Inv(m) && PermittedRun(m, actions) && BookedRun(m, actions)
    ensures Inv(Run(m, actions))
    ensures -TotalLoss(m, actions, k) <= NetAt(Run(m, actions), k) - NetAt(m, k) <= TotalGain(m, actions, k)
    decreases |actions|
  {
    hide Inv, Permitted, Books, Step, NetAt, StepLoss, StepGain, DropsDust;
    if actions != [] {
      StepKeeps(m, actions[0], k);
      RunConserves(Step(m, actions[0]), actions[1..], k);
    }
  }

  /** Wherever a run borrows, the market is an ordinary one. */
  predicate OrdinaryRun(m: Market, actions: seq<Action>)
    decreases |actions|
  {
    actions == [] ||
    (BorrowsInOrdinary(m, actions[0]) && OrdinaryRun(Step(m, actions[0]), actions[1..]))
  }

  predicate BorrowsInOrdinary(m: Market, action: Action) {
    action.ABorrow? && AccrueAt(m, action.pk, action.now).Ok? ==>
      Ordinary(AccrueAt(m, action.pk, action.now).value, action.pk)
  }

  lemma OrdinaryBooks(m: Market, action: Action)
    requires Inv(m) && BorrowsInOrdinary(m, action)
    ensures Books(m, action)
  {
    hide Inv, LendTokens, IfHealthy, PreFee, BooksFee, Ordinary, BankState.AccrueInterest;
    if action.ABorrow? && Process(m, action).Ok? {
      var m1 := AccrueAt(m, action.pk, action.now).value;
      AccrueAtEffect(m, action.pk, action.now);
      OrdinaryBorrowBooks(m1, action.a, action.pk, PreFee(action.fee, action.amount).value, action.now);
    }
  }

  /** So in ordinary markets every run books its fees in full, and conserves. */
  lemma {:induction false} OrdinaryRunBooks(m: Market, actions: seq<Action>)
    requires Inv(m) && PermittedRun(m, actions) && OrdinaryRun(m, actions)
    ensures BookedRun(m, actions)
    decreases |actions|
  {
    hide Inv, Permitted, Books, BorrowsInOrdinary, Step, NetAt, StepLoss, StepGain, DropsDust;
    if actions != [] {
      StepKeeps(m, actions[0], 0);
      OrdinaryBooks(m, actions[0]);
      OrdinaryRunBooks(Step(m, actions[0]), actions[1..]);
    }
  }

  lemma EmptyMarketOk()
    ensures Inv(EMPTY_MARKET)
  {
  }
}
