/** What an accepted instruction says about the accounts it concerns: borrowers are covered,
    flashloans are settled, and nobody is liquidated or written off without cause. */
module Safeguards {
  import opened Results
  import opened FixedPoint
  import opened Valuation
  import opened Banks
  import opened Positions
  import opened TransferFees
  import opened Prices
  import opened Risk
  import opened Ledger
  import opened Instructions
  import opened Conservation
  import opened Runs
  import opened Reachability
  import opened Coverage
  import opened Claims
  import opened Settings

  // ---------------------------------------------------------------- borrowing

  /** At averaged prices and initial weights, account `a` owes no more than it owns, up to
      rounding. */
  predicate CoveredAt(m: Market, a: nat, feeds: map<nat, Feed>) {
    var es := Exposures(m, a, feeds);
    && AllPriced(es, Initial)
    && TotalWorth(es, Initial, Liabilities) <= TotalWorth(es, Initial, Assets) + TotalRounding(es, Initial, Liabilities)
  }

  lemma AccountSound(m: Market, a: nat, feeds: map<nat, Feed>)
    requires Inv(m)
    ensures AllSound(Exposures(m, a, feeds))
  {
    hide Inv;
    if a < |m.accounts| {
      SoundBalances(m);
      ExposuresSound(m, m.accounts[a].balances, feeds);
    }
  }

  lemma HealthyIsCovered(m: Market, a: nat, feeds: map<nat, Feed>)
    requires Inv(m) && !InFlashloan(m, a) && IfHealthy(m, a, feeds).Ok?
    ensures CoveredAt(m, a, feeds)
  {
    hide Inv, Exposures, CheckInitHealth, InFlashloan;
    AccountSound(m, a, feeds);
    PassingIsCovered(Exposures(m, a, feeds));
  }

  /** Ending a flashloan clears its flag and changes nothing else, and the account is
      covered; one that is not is refused, whatever its flag. */
  lemma EndIsCovered(m: Market, a: nat, feeds: map<nat, Feed>)
    requires Inv(m)
    ensures EndFlashloan(m, a, feeds).Ok? ==>
              && a < |m.accounts| && CoveredAt(m, a, feeds)
              && EndFlashloan(m, a, feeds).value
                 == m.(accounts := m.accounts[a := m.accounts[a].(inFlashloan := false)])
              && CoveredAt(EndFlashloan(m, a, feeds).value, a, feeds)
    ensures a < |m.accounts| && !CoveredAt(m, a, feeds) ==> EndFlashloan(m, a, feeds).Err?
  {
    hide Inv, CheckInitHealth, AllPriced, TotalWorth, TotalRounding, ExposuresOf;
    if EndFlashloan(m, a, feeds).Ok? {
      var acct := m.accounts[a].(inFlashloan := false);
      var m' := m.(accounts := m.accounts[a := acct]);
      FlagsKeepInv(m, a, acct);
      HealthyIsCovered(m', a, feeds);
      SameExposures(m, m', m.accounts[a].balances, feeds);
    }
  }

  lemma {:induction false} SameExposures(m: Market, m': Market, bs: seq<BalanceState>, feeds: map<nat, Feed>)
    requires m'.pools == m.pools
    ensures ExposuresOf(m', bs, feeds) == ExposuresOf(m, bs, feeds)
  {
    if bs != [] {
      SameExposures(m, m', bs[1..], feeds);
    }
  }

  /** Starting one sets its flag and changes nothing else, of an account that is in no
      other. */
  lemma StartIsFlagged(m: Market, a: nat)
    requires StartFlashloan(m, a).Ok?
    ensures a < |m.accounts| && !m.accounts[a].inFlashloan && !m.accounts[a].disabled
    ensures var m' := StartFlashloan(m, a).value;
            && m' == m.(accounts := m'.accounts) && |m'.accounts| == |m.accounts|
            && m'.accounts[a] == m.accounts[a].(inFlashloan := true)
            && forall c :: 0 <= c < |m.accounts| && c != a ==> m'.accounts[c] == m.accounts[c]
  {
  }

  /** Whoever has just borrowed, withdrawn, ended a flashloan or liquidated another outside of
      a flashloan is covered. */
  lemma AcceptedIsCovered(m: Market, action: Action)
    requires Inv(m) && Process(m, action).Ok?
    requires action.ABorrow? || action.AWithdraw? || action.AWithdrawAll? || action.AEndFlashloan? || action.ALiquidate?
    requires action.AEndFlashloan? || !InFlashloan(m, action.a)
    ensures CoveredAt(Process(m, action).value, action.a, action.feeds)
  {
    hide Inv, CoveredAt, CheckInitHealth, TakeOut, TakeAllOut, LendOut, AccrueBoth, LiquidationAmounts, SwapPositions,
         CheckPreLiquidation, CheckPostLiquidation, Exposures;
    var m' := Process(m, action).value;
    if action.AEndFlashloan? {
      EndIsCovered(m, action.a, action.feeds);
    } else {
      ProcessBecomes(m, action);
      ProcessSame(m, action);
      HealthyIsCovered(m', action.a, action.feeds);
    }
  }

  lemma {:induction false} PermittedPrefix(m: Market, actions: seq<Action>, i: nat)
    requires PermittedRun(m, actions) && i <= |actions|
    ensures PermittedRun(m, actions[..i])
    decreases i
  {
    hide Permitted, Step;
    if i != 0 {
      assert actions[..i][1..] == actions[1..][..i - 1];
      PermittedPrefix(Step(m, actions[0]), actions[1..], i - 1);
    }
  }

  /** In every run, whoever was in a flashloan and is no more was covered when it ended. */
  lemma FlashloanIsSettled(m: Market, a: nat, actions: seq<Action>) returns (i: nat)
    requires Inv(m) && PermittedRun(m, actions) && a < |m.accounts| && m.accounts[a].inFlashloan
    requires a < |Run(m, actions).accounts| ==> !Run(m, actions).accounts[a].inFlashloan
    ensures i < |actions| && actions[i].AEndFlashloan? && actions[i].a == a
    ensures CoveredAt(Run(m, actions[..i]), a, actions[i].feeds)
  {
    hide Inv, CoveredAt, PermittedRun, EndFlashloan, Run;
    i := FlashloanIsEnded(m, a, actions);
    PermittedPrefix(m, actions, i);
    RunKeepsInv(m, actions[..i]);
    EndIsCovered(Run(m, actions[..i]), a, actions[i].feeds);
  }

  // --------------------------------------------------------------- bankruptcy

  /** At averaged prices and without weights, account `a` owes more than it owns, owns less
      than 0.1 and owes more than 0.0001, up to rounding. */
  predicate Underwater(m: Market, a: nat, feeds: map<nat, Feed>) {
    var es := Exposures(m, a, feeds);
    var owned, owed := TotalWorth(es, Equity, Assets) - TotalRounding(es, Equity, Assets),
                       TotalWorth(es, Equity, Liabilities);
    && AllPriced(es, Equity)
    && owned < owed && owned < BANKRUPT_THRESHOLD * Ulp() && ZERO_AMOUNT_THRESHOLD * Ulp() < owed
  }

  /** Repaying the whole of a debt. */
  lemma RaiseWhole(p: Position, kind: IncreaseType)
    requires 0 <= p.balance.liabilityShares && ONE <= p.bank.liabilityShareValue
    requires p.Raise(Product(p.balance.liabilityShares, p.bank.liabilityShareValue), kind).Ok?
    ensures var q := p.Raise(Product(p.balance.liabilityShares, p.bank.liabilityShareValue), kind).value;
            && 0 <= q.balance.liabilityShares <= 1 && q.balance.assetShares == p.balance.assetShares
            && q.balance.active == p.balance.active && q.balance.bankPk == p.balance.bankPk
  {
    hide Product;
    var debt := Product(p.balance.liabilityShares, p.bank.liabilityShareValue);
    ProductBounds(p.balance.liabilityShares, p.bank.liabilityShareValue);
    SharesForAmount(p.balance.liabilityShares, p.bank.liabilityShareValue, debt);
    assert 0 * ONE / p.bank.assetShareValue == 0;
  }

  /** Only an account under water is settled as bankrupt.  Its debt to the bank, more than
      dust, is gone but for an ulp, insurance has paid first, and it is disabled. */
  lemma BankruptcyIsCalledFor(m: Market, a: nat, pk: nat, insurance: nat, fee: TransferFee, feeds: map<nat, Feed>,
                              now: nat)
    requires Inv(m) && FeeOk(fee) && HandleBankruptcy(m, a, pk, insurance, fee, feeds, now).Ok?
    ensures a < |m.accounts| && !m.accounts[a].inFlashloan && Underwater(m, a, feeds)
    ensures var m1, m' := AfterInterestOn(m, pk, now), HandleBankruptcy(m, a, pk, insurance, fee, feeds, now).value;
            && |m'.accounts| == |m.accounts| == |m1.accounts| && m'.accounts[a].disabled
            && pk in m1.pools && pk in m'.pools
            && var debt := Product(Held(m1, a, pk, LiabilityQ), m1.pools[pk].bank.liabilityShareValue);
               && ZERO_AMOUNT_THRESHOLD < debt && PaidFirst(m1.pools[pk], m'.pools[pk], debt, insurance, fee)
               && 0 <= Held(m', a, pk, LiabilityQ) <= 1
  {
    hide Inv, Exposures, AccrueAt, WriteOff, BadDebt, Product, Held, PaidFirst, AllPriced, TotalWorth, TotalRounding, Ulp,
         CheckBankrupt;
    AccountSound(m, a, feeds);
    BankruptIsUnderwater(InFlashloan(m, a), Exposures(m, a, feeds));
    BankruptcyDisables(m, a, pk, insurance, fee, now);
    AccruedCash(m, pk, now);
    var m1 := AccrueAt(m, pk, now).value;
    BadDebtIs(m1, a, pk);
    var debt := BadDebt(m1, a, pk).value;
    InsurancePaysFirst(m1, a, pk, debt, insurance, fee, now);
    DebtWrittenOffWhole(m1, a, pk, insurance, fee, now);
    SameFlagsHeld(WriteOff(m1, a, pk, debt, insurance, fee, now).value, a, pk);
  }

  /** A bad debt is all that the account owes. */
  lemma BadDebtIs(m: Market, a: nat, pk: nat)
    requires Inv(m) && BadDebt(m, a, pk).Ok?
    ensures a < |m.accounts| && pk in m.pools
    ensures BadDebt(m, a, pk).value == Product(Held(m, a, pk, LiabilityQ), m.pools[pk].bank.liabilityShareValue)
    ensures ZERO_AMOUNT_THRESHOLD < BadDebt(m, a, pk).value
  {
    hide Inv, Product, Held;
    HeldIs(m, a, pk, FindBalance(m.accounts[a].balances, pk).value);
  }

  lemma SameFlagsHeld(m: Market, a: nat, pk: nat)
    requires a < |m.accounts|
    ensures Held(Disable(m, a), a, pk, LiabilityQ) == Held(m, a, pk, LiabilityQ)
  {
  }

  lemma DebtWrittenOffWhole(m: Market, a: nat, pk: nat, insurance: nat, fee: TransferFee, now: nat)
    requires Inv(m) && FeeOk(fee) && BadDebt(m, a, pk).Ok?
    requires WriteOff(m, a, pk, BadDebt(m, a, pk).value, insurance, fee, now).Ok?
    ensures var m' := WriteOff(m, a, pk, BadDebt(m, a, pk).value, insurance, fee, now).value;
            a < |m'.accounts| && 0 <= Held(m', a, pk, LiabilityQ) <= 1
  {
    hide Inv, FillVault, SocializeAt, PreFee, Product, Held, FindFrom, Position.ClaimEmissions, Position.Raise,
         Instructions.Covered, PayIn;
    var debt := BadDebt(m, a, pk).value;
    var i := FindBalance(m.accounts[a].balances, pk).value;
    var covered := Instructions.Covered(debt, insurance, fee);
    var rounded := ToU64(Ceil(covered)).value;
    FillVaultIs(m, pk, fee, rounded);
    var m1 := FillVault(m, pk, fee, rounded).value;
    Socialized(m1, pk, Max(debt - covered, 0));
    var m2 := SocializeAt(m1, pk, Max(debt - covered, 0)).value;
    PoolIsOk(m, pk);
    SocializedDebt(m1.pools[pk].bank, Max(debt - covered, 0));
    WholeRepaid(m, m2, a, pk, i, now);
  }

  lemma FillVaultIs(m: Market, pk: nat, fee: TransferFee, amount: nat)
    requires FillVault(m, pk, fee, amount).Ok?
    ensures pk in m.pools && pk in FillVault(m, pk, fee, amount).value.pools
    ensures FillVault(m, pk, fee, amount).value.accounts == m.accounts
    ensures FillVault(m, pk, fee, amount).value.pools[pk].bank == m.pools[pk].bank
  {
  }

  lemma SocializedDebt(b: BankState, loss: int)
    requires b.SocializeLoss(loss).Ok?
    ensures b.SocializeLoss(loss).value == b.(assetShareValue := b.SocializeLoss(loss).value.assetShareValue)
  {
  }

  lemma WholeRepaid(m: Market, m': Market, a: nat, pk: nat, i: nat, now: nat)
    requires Inv(m) && pk in m.pools && a < |m.accounts| && FindBalance(m.accounts[a].balances, pk) == Some(i)
    requires m'.accounts == m.accounts && pk in m'.pools
    requires m'.pools[pk].bank == m.pools[pk].bank.(assetShareValue := m'.pools[pk].bank.assetShareValue)
    requires PayIn(m', a, pk, Product(m.accounts[a].balances[i].liabilityShares, m.pools[pk].bank.liabilityShareValue),
                   RepayOnly, true, now).Ok?
    ensures var m2 := PayIn(m', a, pk, Product(m.accounts[a].balances[i].liabilityShares,
                                               m.pools[pk].bank.liabilityShareValue), RepayOnly, true, now).value;
            a < |m2.accounts| && 0 <= Held(m2, a, pk, LiabilityQ) <= 1
  {
    hide Inv, Product, Held, FindFrom, Position.ClaimEmissions, Position.Raise;
    PoolIsOk(m, pk);
    var b := m.accounts[a].balances[i];
    var p := Position(m'.pools[pk].bank, b);
    SoundBalances(m);
    ClaimKeepsShares(p, now);
    var c := p.ClaimEmissions(now).value;
    RaiseWhole(c, RepayOnly);
    var q := c.Raise(Product(b.liabilityShares, m.pools[pk].bank.liabilityShareValue), RepayOnly).value;
    HeldIs(m, a, pk, i);
    HeldAfter(m, a, pk, i, q.balance);
    var debt := Product(b.liabilityShares, m.pools[pk].bank.liabilityShareValue);
    var m2 := PayIn(m', a, pk, debt, RepayOnly, true, now).value;
    HeldBy(m2, a, pk);
  }

  lemma ClaimKeepsShares(p: Position, now: nat)
    requires p.ClaimEmissions(now).Ok?
    ensures var c := p.ClaimEmissions(now).value;
            && c.bank == p.bank.(emissionsRemaining := c.bank.emissionsRemaining)
            && c.balance == p.balance.(emissionsOutstanding := c.balance.emissionsOutstanding, lastUpdate := now)
  {
    hide CalcEmissions;
  }

  lemma HeldAfter(m: Market, a: nat, pk: nat, i: nat, b: BalanceState)
    requires a < |m.accounts| && i < |m.accounts[a].balances|
    requires Held(m, a, pk, LiabilityQ) == Holding(m.accounts[a].balances[i], pk, LiabilityQ)
    ensures SumBalances(m.accounts[a].balances[i := b], pk, LiabilityQ) == Holding(b, pk, LiabilityQ)
  {
    SumBalancesUpdate(m.accounts[a].balances, i, b, pk, LiabilityQ);
  }

  lemma HeldBy(m: Market, a: nat, pk: nat)
    requires a < |m.accounts|
    ensures Held(m, a, pk, LiabilityQ) == SumBalances(m.accounts[a].balances, pk, LiabilityQ)
  {
  }

  // -------------------------------------------------------------- liquidation

  /** At spot prices and maintenance weights, account `a` owns no more than it owes, up to
      rounding. */
  predicate Short(m: Market, a: nat, feeds: map<nat, Feed>) {
    var es := Exposures(m, a, feeds);
    && AllPriced(es, Maintenance)
    && TotalWorth(es, Maintenance, Assets)
       <= TotalWorth(es, Maintenance, Liabilities) + TotalRounding(es, Maintenance, Assets)
  }

  /** Only an account that is short and in no flashloan is liquidated.  Collateral and debt
      change hands as quoted, between the two accounts alone, and its health
      rises, though not above zero. */
  lemma LiquidationIsCalledFor(m: Market, a: nat, b: nat, assetPk: nat, debtPk: nat, amount: nat, feeds: map<nat, Feed>,
                               now: nat)
    requires Inv(m) && Liquidate(m, a, b, assetPk, debtPk, amount, feeds, now).Ok?
    ensures 0 < amount && a != b && assetPk != debtPk && !InFlashloan(m, b)
    ensures AccrueBoth(m, assetPk, debtPk, now).Ok?
    ensures var m1, m' := AccrueBoth(m, assetPk, debtPk, now).value,
                          Liquidate(m, a, b, assetPk, debtPk, amount, feeds, now).value;
            var amounts := LiquidationAmounts(m1, assetPk, debtPk, amount, feeds);
            var before, after := MaintenanceHealth(Exposures(m1, b, feeds)), MaintenanceHealth(Exposures(m', b, feeds));
            && Short(m1, b, feeds) && before.Ok? && after.Ok? && before.value < after.value <= 0
            && amounts.Ok? && SwapsClaims(m1, m', a, b, assetPk, debtPk, amount, amounts.value.0, amounts.value.1)
            && SameCash(m1, m', assetPk) && PaysInsurance(m1, m', debtPk, amounts.value.0 - amounts.value.1)
  {
    hide Inv, AccrueBoth, LiquidationAmounts, SwapPositions, Exposures, IfHealthy, InFlashloan, MaintenanceHealth,
         FindExposure, AllPriced, TotalWorth, TotalRounding, SwapsClaims, SameCash, PaysInsurance;
    AccrueBothEffect(m, assetPk, debtPk, now);
    var m1 := AccrueBoth(m, assetPk, debtPk, now).value;
    AccountSound(m1, b, feeds);
    LiquidatableIsShort(false, Exposures(m1, b, feeds), debtPk);
    var (paid, received) := LiquidationAmounts(m1, assetPk, debtPk, amount, feeds).value;
    LiquidationAmountsOrdered(m1, assetPk, debtPk, amount, feeds);
    SwapPositionsSwaps(m1, a, b, assetPk, debtPk, amount, paid, received, now);
    IfHealthyIs(SwapPositions(m1, a, b, assetPk, debtPk, amount, paid, received, now).value, a, feeds);
  }
}
