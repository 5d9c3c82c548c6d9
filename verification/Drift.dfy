/** How far a vault can drift: linearly in the number of instructions, beside the
    rounding of interest. */
module Drift {
  import opened Results
  import opened FixedPoint
  import opened Interest
  import opened Banks
  import opened Prices
  import opened Risk
  import opened Ledger
  import opened Instructions
  import opened Effects
  import opened Conservation
  import opened Runs

  /** Instructions that charge interest before they do anything else. */
  predicate Charges(action: Action) {
    || action.ADeposit? || action.ARepay? || action.ARepayAll? || action.AWithdraw? || action.AWithdrawAll?
    || action.ABorrow? || action.ACloseBalance? || action.AAccrue? || action.ALiquidate?
  }

  // ------------------------------------------------- interest is charged once

  lemma AccrueTwice(m: Market, pk: nat, now: nat)
    requires AccrueAt(m, pk, now).Ok?
    ensures var m1 := AccrueAt(m, pk, now).value;
            AccrueAt(m1, pk, now) == Ok(m1) && m1.accounts == m.accounts && m1.fees == m.fees
  {
    hide AccrualChanges, BankState.AssetAmount, BankState.LiabilityAmount;
    var m1 := AccrueAt(m, pk, now).value;
    assert m1.pools[pk].bank.lastUpdate == now;
    assert m1.PutPool(pk, m1.pools[pk]) == m1;
  }

  lemma AccrueAgain(m: Market, pk: nat, now: nat)
    requires pk in m.pools && m.pools[pk].bank.lastUpdate == now
    ensures AccrueAt(m, pk, now) == Ok(m)
  {
    assert m.PutPool(pk, m.pools[pk]) == m;
  }

  lemma AccrueBothTwice(m: Market, assetPk: nat, liabilityPk: nat, now: nat)
    requires AccrueBoth(m, assetPk, liabilityPk, now).Ok?
    ensures var m1 := AccrueBoth(m, assetPk, liabilityPk, now).value;
            AccrueBoth(m1, assetPk, liabilityPk, now) == Ok(m1) && m1.accounts == m.accounts
  {
    hide AccrualChanges, BankState.AssetAmount, BankState.LiabilityAmount;
    var m1 := AccrueAt(m, assetPk, now).value;
    var m2 := AccrueAt(m1, liabilityPk, now).value;
    assert m1.pools[assetPk].bank.lastUpdate == now && m2.pools[liabilityPk].bank.lastUpdate == now;
    AccrueAgain(m2, assetPk, now);
    AccrueAgain(m2, liabilityPk, now);
  }

  /** The market once an instruction's interest is charged: to one bank, or to both of a
      liquidation. */
  function ChargedBy(m: Market, action: Action): Result<Market>
    requires Charges(action)
  {
    if action.ALiquidate? then AccrueBoth(m, action.assetPk, action.pk, action.now)
    else AccrueAt(m, action.pk, action.now)
  }

  /** Charging interest first changes nothing about an instruction. */
  lemma ChargedFirst(m: Market, action: Action)
    requires Charges(action) && Process(m, action).Ok?
    ensures ChargedBy(m, action).Ok? && Process(ChargedBy(m, action).value, action) == Process(m, action)
  {
    hide AccrueAt, AccrueBoth, PayIn, PayOut, FillVault, DrainVault, PreFee, LendTokens, TakeAllAt, PayAllAt, CloseAt,
         IfHealthy, LiquidationAmounts, SwapPositions, CheckPreLiquidation, CheckPostLiquidation, Exposures;
    if action.ALiquidate? {
      AccrueBothTwice(m, action.assetPk, action.pk, action.now);
    } else {
      AccrueTwice(m, action.pk, action.now);
    }
  }

  lemma PermittedToo(m: Market, action: Action)
    requires Charges(action) && Permitted(m, action) && Process(m, action).Ok?
    requires AccrueAt(m, action.pk, action.now).Ok?
    ensures Permitted(AccrueAt(m, action.pk, action.now).value, action)
  {
    hide AccrueAt, PreFee, LendTokens, IfHealthy, FeeOk;
    AccrueTwice(m, action.pk, action.now);
  }

  lemma AccrueKeys(m: Market, pk: nat, now: nat)
    requires AccrueAt(m, pk, now).Ok?
    ensures pk in m.pools && AccrueAt(m, pk, now).value.pools.Keys == m.pools.Keys
    ensures AccrueAt(m, pk, now).value.pools[pk].bank == AccruedBank(m, pk, now)
  {
    hide BankState.AccrueInterest;
  }

  /** The values of shares that an instruction leaves behind are no less than those
      that interest gave them. */
  lemma AccruedAtMost(m: Market, action: Action)
    requires Inv(m) && Permitted(m, action) && Charges(action) && !action.ALiquidate? && Process(m, action).Ok?
    ensures action.pk in m.pools && action.pk in Process(m, action).value.pools
    ensures Ulps(AccruedBank(m, action.pk, action.now)) <= Ulps(Process(m, action).value.pools[action.pk].bank)
  {
    hide Inv, Permitted, Books, Process, AccrueAt, AccruedBank, Net, LossBound, GainBound, DropsDust;
    var k, now := action.pk, action.now;
    ChargedFirst(m, action);
    PermittedToo(m, action);
    AccrueKeys(m, k, now);
    AccrueAtEffect(m, k, now);
    ProcessBecomes(AccrueAt(m, k, now).value, action);
  }

  lemma LiquidationAccruedAtMost(m: Market, liquidator: nat, liquidatee: nat, assetPk: nat, liabilityPk: nat,
                                 amount: nat, feeds: map<nat, Feed>, now: nat, k: nat)
    requires Inv(m) && Liquidate(m, liquidator, liquidatee, assetPk, liabilityPk, amount, feeds, now).Ok?
    requires k == assetPk || k == liabilityPk
    ensures var m' := Liquidate(m, liquidator, liquidatee, assetPk, liabilityPk, amount, feeds, now).value;
            k in m.pools && k in m'.pools && Ulps(AccruedBank(m, k, now)) <= Ulps(m'.pools[k].bank)
  {
    hide Inv, Net, AccrueBoth, LiquidationAmounts, SwapPositions, CheckPreLiquidation, CheckPostLiquidation, Exposures,
         InFlashloan, IfHealthy, CreditAt, DebitAt, AccruedBank;
    var m1 := AccrueBoth(m, assetPk, liabilityPk, now).value;
    AccrueBothEffect(m, assetPk, liabilityPk, now);
    var (paid, received) := LiquidationAmounts(m1, assetPk, liabilityPk, amount, feeds).value;
    LiquidationAmountsOrdered(m1, assetPk, liabilityPk, amount, feeds);
    var m2 := SwapPositions(m1, liquidator, liquidatee, assetPk, liabilityPk, amount, paid, received, now).value;
    SwapPositionsEffect(m1, liquidator, liquidatee, assetPk, liabilityPk, amount, paid, received, now);
    IfHealthyIs(m2, liquidator, feeds);
  }

  // ------------------------------------------------------------------ steps

  /** The rounding of the interest that a step charges to bank `k`. */
  function InterestLoss(m: Market, action: Action, k: nat): int {
    if k in m.pools && Charges(action) && Touches(action, k) && Process(m, action).Ok?
    then CreditAt(m, k, action.now) else 0
  }

  function InterestGain(m: Market, action: Action, k: nat): int {
    if k in m.pools && Charges(action) && Touches(action, k) && Process(m, action).Ok?
    then DebitAt(m, k, action.now) else 0
  }

  lemma StepIsLinear(m: Market, action: Action, k: nat)
    requires Inv(m) && Permitted(m, action) && !action.ABankruptcy? && k in m.pools
    ensures k in Step(m, action).pools
    ensures var u := Ulps(Step(m, action).pools[k].bank);
            && ONE < u
            && StepLoss(m, action, k) <= InterestLoss(m, action, k) + u - 1
            && StepGain(m, action, k) <= InterestGain(m, action, k) + u - 1
  {
    hide Inv, Permitted, Books, Process, Net, CreditAt, DebitAt, AccruedBank, DropsDust;
    StepKeeps(m, action, k);
    UlpsAtLeast(Step(m, action), k);
    if Charges(action) && Touches(action, k) && Process(m, action).Ok? {
      if action.ALiquidate? {
        LiquidationIs(m, action);
        LiquidationAccruedAtMost(m, action.a, action.liquidatee, action.assetPk, action.pk, action.amount,
                                 action.feeds, action.now, k);
      } else {
        AccruedAtMost(m, action);
      }
    }
  }

  lemma LiquidationIs(m: Market, action: Action)
    requires action.ALiquidate?
    ensures Process(m, action) == Liquidate(m, action.a, action.liquidatee, action.assetPk, action.pk, action.amount,
                                            action.feeds, action.now)
  {
    hide Liquidate;
  }

  lemma UlpsAtLeast(m: Market, k: nat)
    requires Inv(m) && k in m.pools
    ensures ONE < Ulps(m.pools[k].bank)
  {
    hide Inv;
    PoolIsOk(m, k);
  }

  // -------------------------------------------------------------- every run

  function TotalInterestLoss(m: Market, actions: seq<Action>, k: nat): int
    decreases |actions|
  {
    if actions == [] then 0
    else InterestLoss(m, actions[0], k) + TotalInterestLoss(Step(m, actions[0]), actions[1..], k)
  }

  function TotalInterestGain(m: Market, actions: seq<Action>, k: nat): int
    decreases |actions|
  {
    if actions == [] then 0
    else InterestGain(m, actions[0], k) + TotalInterestGain(Step(m, actions[0]), actions[1..], k)
  }

  predicate NoBankruptcy(actions: seq<Action>) {
    forall i :: 0 <= i < |actions| ==> !actions[i].ABankruptcy?
  }

  lemma {:induction false} BoundsAreLinear(m: Market, actions: seq<Action>, k: nat)
    requires Inv(m) && PermittedRun(m, actions) && NoBankruptcy(actions) && k in m.pools
    ensures k in Run(m, actions).pools
    ensures var u := Ulps(Run(m, actions).pools[k].bank);
            && Ulps(m.pools[k].bank) <= u
            && TotalLoss(m, actions, k) <= TotalInterestLoss(m, actions, k) + |actions| * (u - 1)
            && TotalGain(m, actions, k) <= TotalInterestGain(m, actions, k) + |actions| * (u - 1)
    decreases |actions|
  {
    hide Inv, Permitted, Books, Step, NetAt, StepLoss, StepGain, InterestLoss, InterestGain, DropsDust;
    if actions != [] {
      var m1, rest := Step(m, actions[0]), actions[1..];
      StepKeeps(m, actions[0], k);
      StepIsLinear(m, actions[0], k);
      BoundsAreLinear(m1, rest, k);
      var u := Ulps(Run(m, actions).pools[k].bank);
      assert |actions| * (u - 1) == |rest| * (u - 1) + (u - 1);
    }
  }

  /** Without bankruptcies the net position of a bank drifts, beside the rounding of
      interest, by less than one ulp of both kinds of share per instruction. */
  lemma DriftIsLinear(m: Market, actions: seq<Action>, k: nat)
    requires Inv(m) && PermittedRun(m, actions) && BookedRun(m, actions) && NoBankruptcy(actions) && k in m.pools
    ensures k in Run(m, actions).pools
    ensures var m' := Run(m, actions);
            var rounding := |actions| * (Ulps(m'.pools[k].bank) - 1);
            -TotalInterestLoss(m, actions, k) - rounding
            <= Net(m'.pools[k]) - Net(m.pools[k])
            <= TotalInterestGain(m, actions, k) + rounding
  {
    hide Inv, PermittedRun, BookedRun, Run, TotalLoss, TotalGain, Net, TotalInterestLoss, TotalInterestGain;
    BoundsAreLinear(m, actions, k);
    RunConserves(m, actions, k);
  }
}
