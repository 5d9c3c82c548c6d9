/** What holds in every state that the program can reach. */
module Reachability {
  import opened FixedPoint
  import opened Banks
  import opened Positions
  import opened TransferFees
  import opened Prices
  import opened Risk
  import opened Ledger
  import opened Instructions
  import opened Effects
  import opened Runs

  ghost predicate Reachable(m: Market) {
    exists actions :: PermittedRun(EMPTY_MARKET, actions) && Run(EMPTY_MARKET, actions) == m
  }

  lemma ReachableInv(m: Market)
    requires Reachable(m)
    ensures Inv(m)
  {
    hide Inv, PermittedRun, Run;
    var actions :| PermittedRun(EMPTY_MARKET, actions) && Run(EMPTY_MARKET, actions) == m;
    EmptyMarketOk();
    RunKeepsInv(EMPTY_MARKET, actions);
  }

  // ----------------------------------------------------- the books of a bank

  /** The shares that a bank has issued are those that its users hold and the dust
      of closed balances, and no balance is a deposit and a debt at once. */
  lemma SharesAgree(m: Market, k: nat)
    requires Reachable(m) && k in m.pools
    ensures var pool := m.pools[k];
            && pool.bank.totalAssetShares == SumAccounts(m.accounts, k, AssetQ) + pool.droppedAssets
            && pool.bank.totalLiabilityShares == SumAccounts(m.accounts, k, LiabilityQ) + pool.droppedLiabilities
    ensures forall a, i :: 0 <= a < |m.accounts| && 0 <= i < |m.accounts[a].balances| ==>
              m.accounts[a].balances[i].GetSide().Ok?
  {
    hide Reachable, SumAccounts;
    ReachableInv(m);
    assert Agrees(m, k) && AssetQ in QUANTITIES && LiabilityQ in QUANTITIES;
    assert Booked(m.pools[k], AssetQ) == SumAccounts(m.accounts, k, AssetQ);
    assert Booked(m.pools[k], LiabilityQ) == SumAccounts(m.accounts, k, LiabilityQ);
    forall a, i | 0 <= a < |m.accounts| && 0 <= i < |m.accounts[a].balances|
      ensures m.accounts[a].balances[i].GetSide().Ok?
    {
      assert AccountOk(m.accounts[a], m.pools.Keys);
    }
  }

  /** Every emission token funded is paid out, owed to a user, forfeited with a
      closed balance, or still to be emitted; none is paid twice. */
  lemma EmissionsConserved(m: Market, k: nat)
    requires Reachable(m) && k in m.pools
    ensures var pool := m.pools[k];
            && pool.emissionsFunded * ONE
               == pool.emissionsPaid * ONE + SumAccounts(m.accounts, k, EmissionQ) + pool.emissionsForfeited
                  + pool.bank.emissionsRemaining
            && 0 <= pool.bank.emissionsRemaining && pool.emissionsPaid <= pool.emissionsFunded
  {
    hide Reachable;
    ReachableInv(m);
    assert Agrees(m, k) && EmissionQ in QUANTITIES;
    assert Booked(m.pools[k], EmissionQ) == SumAccounts(m.accounts, k, EmissionQ);
    SoundBalances(m);
    SumAccountsAtLeast(m.accounts, k, EmissionQ, |m.accounts|);
  }

  lemma SoundBalances(m: Market)
    requires Inv(m)
    ensures forall c, j :: 0 <= c < |m.accounts| && 0 <= j < |m.accounts[c].balances| ==>
              m.accounts[c].balances[j].Sound()
  {
    forall c, j | 0 <= c < |m.accounts| && 0 <= j < |m.accounts[c].balances|
      ensures m.accounts[c].balances[j].Sound()
    {
      assert AccountOk(m.accounts[c], m.pools.Keys);
    }
  }

  // -------------------------------------------------------------- solvency

  /** What balances `bs` may withdraw from bank `k`, each rounded on its own. */
  function Withdrawable(bs: seq<BalanceState>, k: nat, value: int): int {
    if bs == [] then 0 else Product(Holding(bs[0], k, AssetQ), value) + Withdrawable(bs[1..], k, value)
  }

  function TotalWithdrawable(accounts: seq<Account>, k: nat, value: int): int {
    if accounts == [] then 0 else
    Withdrawable(accounts[0].balances, k, value) + TotalWithdrawable(accounts[1..], k, value)
  }

  lemma {:induction false} WithdrawableAtMost(bs: seq<BalanceState>, k: nat, value: int)
    ensures ONE * Withdrawable(bs, k, value) <= SumBalances(bs, k, AssetQ) * value
  {
    if bs != [] {
      WithdrawableAtMost(bs[1..], k, value);
      ProductBounds(Holding(bs[0], k, AssetQ), value);
      Distributes(Holding(bs[0], k, AssetQ), SumBalances(bs[1..], k, AssetQ), value);
    }
  }

  lemma {:induction false} TotalWithdrawableAtMost(accounts: seq<Account>, k: nat, value: int)
    ensures ONE * TotalWithdrawable(accounts, k, value) <= SumAccounts(accounts, k, AssetQ) * value
  {
    if accounts != [] {
      WithdrawableAtMost(accounts[0].balances, k, value);
      TotalWithdrawableAtMost(accounts[1..], k, value);
      Distributes(SumBalances(accounts[0].balances, k, AssetQ), SumAccounts(accounts[1..], k, AssetQ), value);
    }
  }

  lemma Distributes(x: int, y: int, value: int)
    ensures (x + y) * value == x * value + y * value
  {
  }

  /** What users may withdraw, each rounded on its own, is no more than the bank's
      own rounded total. */
  lemma DepositsWithinBank(m: Market, k: nat)
    requires Reachable(m) && k in m.pools
    ensures var b := m.pools[k].bank;
            TotalWithdrawable(m.accounts, k, b.assetShareValue) <= Product(b.totalAssetShares, b.assetShareValue)
  {
    hide Reachable, SumAccounts, TotalWithdrawable, Product, Inv;
    var b := m.pools[k].bank;
    ReachableInv(m);
    SharesAgree(m, k);
    PoolIsOk(m, k);
    TotalWithdrawableAtMost(m.accounts, k, b.assetShareValue);
    Scale(SumAccounts(m.accounts, k, AssetQ), b.totalAssetShares, b.assetShareValue);
    ProductBounds(b.totalAssetShares, b.assetShareValue);
  }

  /** After every run, all that the users of a bank may withdraw and all fees that
      it has booked are covered by its vault and by what borrowers owe, up to the
      rounding of the steps taken. */
  lemma WithdrawalsAreCovered(actions: seq<Action>, k: nat)
    requires PermittedRun(EMPTY_MARKET, actions) && BookedRun(EMPTY_MARKET, actions)
    requires k in Run(EMPTY_MARKET, actions).pools
    ensures var m := Run(EMPTY_MARKET, actions);
            var b := m.pools[k].bank;
            ONE * TotalWithdrawable(m.accounts, k, b.assetShareValue)
            + ONE * (b.insuranceFees + b.groupFees + b.programFees)
            <= m.pools[k].vault * ONE * ONE + b.totalLiabilityShares * b.liabilityShareValue
               + TotalLoss(EMPTY_MARKET, actions, k)
  {
    hide Run, PermittedRun, BookedRun, TotalLoss, TotalGain, SumAccounts, TotalWithdrawable;
    var m := Run(EMPTY_MARKET, actions);
    EmptyMarketOk();
    RunConserves(EMPTY_MARKET, actions, k);
    assert Reachable(m);
    SharesAgree(m, k);
    var b := m.pools[k].bank;
    TotalWithdrawableAtMost(m.accounts, k, b.assetShareValue);
    assert PoolOk(m.pools[k]);
    Scale(SumAccounts(m.accounts, k, AssetQ), b.totalAssetShares, b.assetShareValue);
  }

  /** Debts never lose value, and deposits only in bankruptcies. */
  lemma {:induction false} ShareValuesGrow(m: Market, actions: seq<Action>, k: nat)
    requires Inv(m) && PermittedRun(m, actions) && k in m.pools
    ensures k in Run(m, actions).pools
    ensures m.pools[k].bank.liabilityShareValue <= Run(m, actions).pools[k].bank.liabilityShareValue
    ensures (forall i :: 0 <= i < |actions| ==> !actions[i].ABankruptcy?) ==>
              m.pools[k].bank.assetShareValue <= Run(m, actions).pools[k].bank.assetShareValue
    decreases |actions|
  {
    hide Inv, Permitted, Books, Step, NetAt, StepLoss, StepGain, DropsDust;
    if actions != [] {
      StepKeeps(m, actions[0], k);
      ShareValuesGrow(Step(m, actions[0]), actions[1..], k);
    }
  }

  // ------------------------------------------------------------------- risk

  lemma {:induction false} ExposuresSound(m: Market, bs: seq<BalanceState>, feeds: map<nat, Feed>)
    requires Inv(m) && forall i :: 0 <= i < |bs| ==> bs[i].Sound()
    ensures forall e :: e in ExposuresOf(m, bs, feeds) ==> e.Sound()
  {
    hide Inv, BalanceState.Sound, BankState.Healthy;
    if bs != [] {
      ExposuresSound(m, bs[1..], feeds);
      if bs[0].active && bs[0].bankPk in m.pools {
        PoolIsOk(m, bs[0].bankPk);
      }
    }
  }

  lemma HealthyIsNotBankrupt(m: Market, a: nat, feeds: map<nat, Feed>, pk: nat, insurance: nat, fee: TransferFee,
                             now: nat)
    requires Inv(m) && IfHealthy(m, a, feeds).Ok?
    ensures HandleBankruptcy(m, a, pk, insurance, fee, feeds, now).Err?
  {
    hide Inv, CheckInitHealth, CheckBankrupt, SettleBadDebt;
    if a < |m.accounts| {
      SoundBalances(m);
      ExposuresSound(m, m.accounts[a].balances, feeds);
    }
    InitHealthyIsNotBankrupt(InFlashloan(m, a), Exposures(m, a, feeds));
  }

  /** An account that has just borrowed, withdrawn, ended a flashloan or liquidated
      another cannot be declared bankrupt at the prices that were used. */
  lemma AcceptedIsNotBankrupt(m: Market, action: Action, pk: nat, insurance: nat, fee: TransferFee, now: nat)
    requires Inv(m) && Process(m, action).Ok?
    requires action.ABorrow? || action.AWithdraw? || action.AWithdrawAll? || action.AEndFlashloan? || action.ALiquidate?
    ensures HandleBankruptcy(Process(m, action).value, action.a, pk, insurance, fee, action.feeds, now).Err?
  {
    hide Inv, HandleBankruptcy, CheckInitHealth, TakeOut, TakeAllOut, LendOut, AccrueBoth,
         LiquidationAmounts, SwapPositions, CheckPreLiquidation, CheckPostLiquidation, Exposures, InFlashloan;
    ProcessBecomes(m, action);
    HealthyIsNotBankrupt(Process(m, action).value, action.a, action.feeds, pk, insurance, fee, now);
  }
}
