/** Everything that was put in comes out again: deposits, a loan and all repayments and
    withdrawals lead back to where they started. */
module Cycles {
  import opened Results
  import opened FixedPoint
  import opened Banks
  import opened Positions
  import opened TransferFees
  import opened Risk
  import opened Ledger
  import opened Instructions
  import opened Conservation
  import opened Scenarios

  // ------------------------------------------------------------ no debts

  lemma {:induction false} UnpricedPasses(es: seq<Exposure>)
    requires forall e :: e in es ==> e.feed == None && e.balance.IsEmpty(Liabilities)
    ensures HealthComponents(es, Initial) == Ok((0, 0))
  {
    if es != [] {
      UnpricedPasses(es[..|es| - 1]);
      assert es[|es| - 1] in es;
    }
  }

  lemma {:induction false} UnpricedExposures(m: Market, bs: seq<BalanceState>)
    requires forall i :: 0 <= i < |bs| ==> bs[i].IsEmpty(Liabilities)
    ensures forall e :: e in ExposuresOf(m, bs, map[]) ==> e.feed == None && e.balance.IsEmpty(Liabilities)
  {
    if bs != [] {
      UnpricedExposures(m, bs[1..]);
    }
  }

  /** Whoever owes nothing needs no prices. */
  lemma DebtlessIsHealthy(m: Market, a: nat)
    requires a < |m.accounts|
    requires forall i :: 0 <= i < |m.accounts[a].balances| ==> m.accounts[a].balances[i].IsEmpty(Liabilities)
    ensures IfHealthy(m, a, map[]) == Ok(m)
  {
    hide HealthComponents, ExposuresOf;
    UnpricedExposures(m, m.accounts[a].balances);
    UnpricedPasses(Exposures(m, a, map[]));
  }

  lemma DepositorOwesNothing(pk: nat, amount: nat)
    ensures forall i :: 0 <= i < |Depositor(pk, amount, 0).balances| ==>
                          Depositor(pk, amount, 0).balances[i].IsEmpty(Liabilities)
  {
    hide EmptyBalances;
    EmptyBalancesAre(MAX_LENDING_ACCOUNT_BALANCES - 1);
  }

  // ------------------------------------------------------------- whole balances

  lemma UnitTakeAll(bank: BankState, pk: nat, amount: nat)
    requires IsUnit(bank.(totalAssetShares := amount * ONE)) && bank.totalLiabilityShares == 0
    requires bank.insuranceFees == 0 && 0 < amount <= U64_MAX
    ensures Position(bank.(totalAssetShares := amount * ONE), FreshBalance(pk, 0).(assetShares := amount * ONE)).TakeAll()
            == Ok((Position(bank.(totalAssetShares := 0), EMPTY_BALANCE), amount))
  {
    hide Product, Truncated;
    UnitValue(amount * ONE);
    UnitValue(0);
  }

  lemma UnitPayAll(config: BankConfig, deposit: nat, loan: nat)
    requires IsOpen(config) && 0 < loan <= deposit <= U64_MAX
    ensures Position(LentOut(config, deposit, loan), Owed(loan)).PayAll()
            == Ok((Position(LentOut(config, deposit, 0), EMPTY_BALANCE), loan))
  {
    hide Product, Truncated;
    UnitValue(loan * ONE);
    UnitValue(0);
  }

  // ---------------------------------------------------------- the way back

  /** A repayment of part of the loan. */
  lemma RepaysPart(config: BankConfig, deposit: nat, collateral: nat, loan: nat, part: nat)
    requires IsOpen(config) && part <= loan <= deposit <= U64_MAX && collateral <= U64_MAX
    ensures Repay(AfterBorrow(config, deposit, collateral, loan), 1, 1, part, NO_FEE, 0)
            == Ok(AfterBorrow(config, deposit, collateral, loan - part))
  {
    hide EmptyBalances, FindBalance, FirstEmptyFrom, Position.Increase, AccrueAt, PreFee, Received;
    var m, m' := AfterBorrow(config, deposit, collateral, loan), AfterBorrow(config, deposit, collateral, loan - part);
    NoTimePassed(m, 1, 0);
    HolderSlots(Owned(collateral), Owed(loan));
    UnitRepay(Position(LentOut(config, deposit, loan), Owed(loan)), part * ONE, RepayOnly, 0);
    NoFee(part);
    var pool := m.pools[1].(bank := LentOut(config, deposit, loan - part));
    var m1 := m.Put(1, pool, 1, 1, Owed(loan - part));
    assert PayIn(m, 1, 1, part * ONE, RepayOnly, false, 0) == Ok(m1);
    assert m1.accounts[1].balances == Holder(Owned(collateral), Owed(loan - part)).balances;
    assert m1.accounts == m'.accounts;
    assert m1.PutPool(1, pool.(vault := deposit - loan + part)).pools == m'.pools;
  }

  /** A repayment of all that is left of it. */
  lemma RepaysRest(config: BankConfig, deposit: nat, collateral: nat, loan: nat)
    requires IsOpen(config) && 0 < loan <= deposit <= U64_MAX && collateral <= U64_MAX
    ensures RepayAll(AfterBorrow(config, deposit, collateral, loan), 1, 1, NO_FEE, 0)
            == Ok(BeforeBorrow(EMPTY_MARKET.fees, config, deposit, collateral))
  {
    hide EmptyBalances, FindBalance, FirstEmptyFrom, Position.PayAll, AccrueAt, PreFee, Received;
    var m := AfterBorrow(config, deposit, collateral, loan);
    var m' := BeforeBorrow(EMPTY_MARKET.fees, config, deposit, collateral);
    NoTimePassed(m, 1, 0);
    HolderSlots(Owned(collateral), Owed(loan));
    var p := Position(LentOut(config, deposit, loan), Owed(loan));
    assert p.ClaimEmissions(0) == Ok(p);
    UnitPayAll(config, deposit, loan);
    NoFee(loan);
    var pool := m.pools[1].(bank := LentOut(config, deposit, 0));
    var m1 := m.Put(1, pool, 1, 1, EMPTY_BALANCE);
    assert PayAllAt(m, 1, 1, 0) == Ok((m1, loan));
    NextEmpty();
    assert m1.accounts[1].balances == Depositor(2, collateral, 0).balances;
    assert m1.accounts == m'.accounts;
    assert m1.PutPool(1, pool.(vault := deposit)).pools == m'.pools;
  }

  /** A withdrawal of part of the collateral. */
  lemma WithdrawsPart(config: BankConfig, deposit: nat, collateral: nat, part: nat)
    requires IsOpen(config) && part <= collateral <= U64_MAX
    ensures Withdraw(BeforeBorrow(EMPTY_MARKET.fees, config, deposit, collateral), 1, 2, part, NO_FEE, map[], 0)
            == Ok(BeforeBorrow(EMPTY_MARKET.fees, config, deposit, collateral - part))
  {
    hide EmptyBalances, FindBalance, FirstEmptyFrom, Position.Decrease, AccrueAt, PreFee, Received, IfHealthy;
    var m := BeforeBorrow(EMPTY_MARKET.fees, config, deposit, collateral);
    var m' := BeforeBorrow(EMPTY_MARKET.fees, config, deposit, collateral - part);
    NoTimePassed(m, 2, 0);
    DepositorSlots(m.accounts[1], 2, collateral, Owned(collateral - part), 1);
    UnitWithdraw(Position(m.pools[2].bank, Owned(collateral)), part * ONE, WithdrawOnly, 0);
    NoFee(part);
    var pool := m.pools[2].(bank := Bank(config).(totalAssetShares := (collateral - part) * ONE));
    var m1 := m.Put(2, pool, 1, 0, Owned(collateral - part));
    assert PayOut(m, 1, 2, part * ONE, WithdrawOnly, false, 0) == Ok(m1);
    assert m1.accounts[1].balances == Depositor(2, collateral - part, 0).balances;
    assert m1.accounts == m'.accounts;
    assert m1.PutPool(2, pool.(vault := collateral - part)).pools == m'.pools;
    DepositorOwesNothing(2, collateral - part);
    DebtlessIsHealthy(m', 1);
  }

  /** The only depositor of a bank withdraws everything. */
  lemma WithdrawsRest(m: Market, a: nat, pk: nat, bank: BankState, amount: nat)
    requires a < |m.accounts| && pk in m.pools && m.accounts[a] == Depositor(pk, amount, 0)
    requires m.pools[pk] == FundedPool(bank, amount) && IsUnit(bank.(totalAssetShares := amount * ONE))
    requires bank.totalLiabilityShares == bank.totalAssetShares == 0 && bank.insuranceFees == 0 && bank.lastUpdate == 0
    requires 0 < amount <= U64_MAX
    ensures WithdrawAll(m, a, pk, map[], 0)
            == Ok(m.(pools := m.pools[pk := EmptyPool(bank)], accounts := m.accounts[a := NewAccount()]))
  {
    hide EmptyBalances, FindBalance, FirstEmptyFrom, Position.TakeAll, AccrueAt, IfHealthy;
    var m' := m.(pools := m.pools[pk := EmptyPool(bank)], accounts := m.accounts[a := NewAccount()]);
    NoTimePassed(m, pk, 0);
    DepositorSlots(m.accounts[a], pk, amount, FreshBalance(pk, 0), pk + 1);
    var p := Position(m.pools[pk].bank, FreshBalance(pk, 0).(assetShares := amount * ONE));
    UnitClaim(p, 0);
    UnitTakeAll(bank, pk, amount);
    var pool := m.pools[pk].(bank := bank);
    var m1 := m.Put(pk, pool, a, 0, EMPTY_BALANCE);
    assert TakeAllAt(m, a, pk, 0) == Ok((m1, amount));
    FirstEmpty();
    assert m1.accounts[a].balances == NewAccount().balances;
    assert m1.accounts == m'.accounts;
    assert m1.PutPool(pk, pool.(vault := 0)).pools == m'.pools;
    EmptyBalancesAre(MAX_LENDING_ACCOUNT_BALANCES);
    DebtlessIsHealthy(m', a);
  }

  lemma FirstEmpty()
    ensures EmptyBalances(MAX_LENDING_ACCOUNT_BALANCES)
            == [EMPTY_BALANCE] + EmptyBalances(MAX_LENDING_ACCOUNT_BALANCES - 1)
  {
  }

  /** Two banks and two accounts, with nothing in them. */
  function Empty(config: BankConfig): Market {
    Market(map[1 := EmptyPool(Bank(config)), 2 := EmptyPool(Bank(config))], [NewAccount(), NewAccount()],
           EMPTY_MARKET.fees)
  }

  /** Repay a part of the loan and the rest, withdraw a part of the collateral and the rest,
      and the deposit. */
  function WayBack(part: nat, piece: nat): seq<Action> {
    [ARepay(1, 1, part, NO_FEE, 0), ARepayAll(1, 1, NO_FEE, 0), AWithdraw(1, 2, piece, NO_FEE, map[], 0),
     AWithdrawAll(1, 2, map[], 0), AWithdrawAll(0, 1, map[], 0)]
  }

  /** Whatever was deposited, lent and pledged, and in whatever parts it is paid back at
      once, every instruction is accepted and the vaults, the books and the
      accounts are as if nothing had happened. */
  lemma EverythingComesBack(config: BankConfig, deposit: nat, collateral: nat, loan: nat, part: nat, piece: nat)
    requires IsOpen(config) && part < loan <= deposit <= U64_MAX && piece < collateral <= U64_MAX
    ensures Run(AfterBorrow(config, deposit, collateral, loan), WayBack(part, piece)) == Empty(config)
    ensures forall i :: 0 <= i < 5 ==>
              Process(Run(AfterBorrow(config, deposit, collateral, loan), WayBack(part, piece)[..i]),
                      WayBack(part, piece)[i]).Ok?
  {
    hide Repay, RepayAll, Withdraw, WithdrawAll, AfterBorrow, BeforeBorrow, EmptyBalances, Empty;
    var m0, m1 := AfterBorrow(config, deposit, collateral, loan), AfterBorrow(config, deposit, collateral, loan - part);
    var m2 := BeforeBorrow(EMPTY_MARKET.fees, config, deposit, collateral);
    var m3 := BeforeBorrow(EMPTY_MARKET.fees, config, deposit, collateral - piece);
    RepaysPart(config, deposit, collateral, loan, part);
    RepaysRest(config, deposit, collateral, loan - part);
    WithdrawsPart(config, deposit, collateral, piece);
    var m4 := WithdrawsCollateral(config, deposit, collateral - piece);
    WithdrawsDeposit(config, deposit, m4);
    FiveSteps([m0, m1, m2, m3, m4, Empty(config)], WayBack(part, piece));
  }

  lemma WithdrawsCollateral(config: BankConfig, deposit: nat, collateral: nat) returns (m': Market)
    requires IsOpen(config) && 0 < collateral <= U64_MAX
    ensures m' == Market(map[1 := FundedPool(Bank(config), deposit), 2 := EmptyPool(Bank(config))],
                         [Depositor(1, deposit, 0), NewAccount()], EMPTY_MARKET.fees)
    ensures WithdrawAll(BeforeBorrow(EMPTY_MARKET.fees, config, deposit, collateral), 1, 2, map[], 0) == Ok(m')
  {
    hide WithdrawAll, EmptyBalances;
    var m := BeforeBorrow(EMPTY_MARKET.fees, config, deposit, collateral);
    WithdrawsRest(m, 1, 2, Bank(config), collateral);
    m' := Market(map[1 := FundedPool(Bank(config), deposit), 2 := EmptyPool(Bank(config))],
                 [Depositor(1, deposit, 0), NewAccount()], EMPTY_MARKET.fees);
    assert m'.pools == m.pools[2 := EmptyPool(Bank(config))];
    assert m'.accounts == m.accounts[1 := NewAccount()];
  }

  lemma WithdrawsDeposit(config: BankConfig, deposit: nat, m: Market)
    requires IsOpen(config) && 0 < deposit <= U64_MAX
    requires m == Market(map[1 := FundedPool(Bank(config), deposit), 2 := EmptyPool(Bank(config))],
                         [Depositor(1, deposit, 0), NewAccount()], EMPTY_MARKET.fees)
    ensures WithdrawAll(m, 0, 1, map[], 0) == Ok(Empty(config))
  {
    hide WithdrawAll, EmptyBalances;
    WithdrawsRest(m, 0, 1, Bank(config), deposit);
    assert Empty(config).pools == m.pools[1 := EmptyPool(Bank(config))];
    assert Empty(config).accounts == m.accounts[0 := NewAccount()];
  }

  lemma FiveSteps(ms: seq<Market>, actions: seq<Action>)
    requires |ms| == 6 && |actions| == 5 && forall i :: 0 <= i < 5 ==> Process(ms[i], actions[i]) == Ok(ms[i + 1])
    ensures Run(ms[0], actions) == ms[5]
    ensures forall i :: 0 <= i < 5 ==> Process(Run(ms[0], actions[..i]), actions[i]).Ok?
  {
    hide Process;
    forall i | 0 <= i < 5
      ensures Process(Run(ms[0], actions[..i]), actions[i]).Ok?
    {
      StepsTo(ms, actions, i);
      assert Process(ms[i], actions[i]) == Ok(ms[i + 1]);
    }
    assert actions[..5] == actions;
    StepsTo(ms, actions, 5);
  }

  lemma {:induction false} StepsTo(ms: seq<Market>, actions: seq<Action>, i: nat)
    requires |ms| == |actions| + 1 && i <= |actions|
    requires forall j :: 0 <= j < |actions| ==> Process(ms[j], actions[j]) == Ok(ms[j + 1])
    ensures Run(ms[0], actions[..i]) == ms[i]
    decreases i
  {
    hide Process;
    if i != 0 {
      assert actions[..i][1..] == actions[1..][..i - 1];
      StepsTo(ms[1..], actions[1..], i - 1);
    }
  }

  // --------------------------------------------------------------- flashloans

  /** The borrower is in a flashloan. */
  function Flashing(m: Market): Market
    requires 1 < |m.accounts|
  {
    m.(accounts := m.accounts[1 := m.accounts[1].(inFlashloan := true)])
  }

  /** The end of a flashloan is accepted or refused by what is owned and owed then. */
  lemma EndDecides(config: BankConfig, deposit: nat, collateral: nat, loan: nat, debtPrice: nat, price: nat)
    requires Weighs(config) && 0 < loan <= deposit && loan <= 10_000 && 0 < collateral <= 10_000
    requires debtPrice <= 1000 && price <= 1000
    ensures var m := AfterBorrow(config, deposit, collateral, loan);
            EndFlashloan(Flashing(m), 1, Quotes(debtPrice, price))
            == if loan * config.liabilityWeightInit * debtPrice <= collateral * config.assetWeightInit * price then Ok(m)
               else Err(RiskEngineInitRejected)
  {
    hide HealthComponents, Exposures, EmptyBalances;
    BorrowerHealth(config, deposit, collateral, loan, debtPrice, price, Initial);
    var m := AfterBorrow(config, deposit, collateral, loan);
    assert Flashing(m).accounts[1 := Flashing(m).accounts[1].(inFlashloan := false)] == m.accounts;
  }
}
