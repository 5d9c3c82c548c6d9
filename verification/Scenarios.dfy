/** Runs of the program: a first deposit, a bankruptcy that deposits do not bear, and an
    account that no one can liquidate. */
module Scenarios {
  import opened Results
  import opened FixedPoint
  import opened Interest
  import opened Valuation
  import opened Banks
  import opened Positions
  import opened TransferFees
  import opened Prices
  import opened Risk
  import opened Ledger
  import opened Instructions
  import opened Effects
  import opened Conservation
  import opened Runs
  import opened Liquidations
  import opened Reachability

  /** The actions lead from each of the markets `ms` to the next. */
  predicate Leads(ms: seq<Market>, actions: seq<Action>) {
    |ms| == |actions| + 1 &&
    forall i :: 0 <= i < |actions| ==> LeadsTo(ms[i], actions[i], ms[i + 1])
  }

  predicate LeadsTo(m: Market, action: Action, m': Market) {
    Step(m, action) == m' && Permitted(m, action) && Books(m, action)
  }

  lemma LeadsOn(ms: seq<Market>, actions: seq<Action>, action: Action, m: Market)
    requires Leads(ms, actions) && LeadsTo(ms[|actions|], action, m)
    ensures Leads(ms + [m], actions + [action])
  {
    hide LeadsTo;
  }

  lemma {:induction false} RunThrough(ms: seq<Market>, actions: seq<Action>)
    requires Leads(ms, actions)
    ensures Run(ms[0], actions) == ms[|actions|] && PermittedRun(ms[0], actions) && BookedRun(ms[0], actions)
    decreases |actions|
  {
    hide Step, Permitted, Books;
    if actions != [] {
      assert LeadsTo(ms[0], actions[0], ms[1]);
      RunThrough(ms[1..], actions[1..]);
    }
  }

  // ------------------------------------------------------- the first deposit

  /** A position just opened takes any deposit that the limit allows. */
  lemma FreshIncrease(bank: BankState, pk: nat, amount: nat, now: nat)
    requires bank.assetShareValue == bank.liabilityShareValue == ONE
    requires bank.totalAssetShares == bank.totalLiabilityShares == 0
    requires bank.config.operationalState == Operational && amount <= U64_MAX
    requires amount < bank.config.depositLimit || bank.config.depositLimit == U64_MAX
    ensures Position(bank, FreshBalance(pk, now)).Increase(amount * ONE, AnyIncrease, now)
            == Ok(Position(bank.(totalAssetShares := amount * ONE), FreshBalance(pk, now).(assetShares := amount * ONE)))
  {
    var p := Position(bank, FreshBalance(pk, now));
    assert p.ClaimEmissions(now) == Ok(p);
    assert Truncated(amount * ONE * ONE, ONE) == amount * ONE && Truncated(0 * ONE, ONE) == 0;
    assert Product(amount * ONE, ONE) == amount * ONE && Product(0, ONE) == 0;
  }

  function NewAccount(): Account {
    Account(EmptyBalances(MAX_LENDING_ACCOUNT_BALANCES), false, false)
  }

  /** An account with one balance, in its first slot. */
  function Depositor(pk: nat, amount: nat, now: nat): Account {
    Account([FreshBalance(pk, now).(assetShares := amount * ONE)] + EmptyBalances(MAX_LENDING_ACCOUNT_BALANCES - 1),
            false, false)
  }

  function EmptyPool(bank: BankState): Pool {
    Pool(bank, 0, 0, 0, 0, 0, 0)
  }

  function FundedPool(bank: BankState, amount: nat): Pool {
    Pool(bank.(totalAssetShares := amount * ONE), amount, 0, 0, 0, 0, 0)
  }

  /** The first deposit into a bank by a new account. */
  lemma DepositInto(m: Market, a: nat, pk: nat, bank: BankState, amount: nat, now: nat)
    requires a < |m.accounts| && m.accounts[a] == NewAccount() && pk in m.pools && m.pools[pk] == EmptyPool(bank)
    requires bank.assetShareValue == bank.liabilityShareValue == ONE
    requires bank.totalAssetShares == bank.totalLiabilityShares == 0
    requires bank.config.operationalState == Operational && amount <= U64_MAX && bank.lastUpdate == now
    requires amount < bank.config.depositLimit || bank.config.depositLimit == U64_MAX
    ensures Deposit(m, a, pk, amount, NO_FEE, now)
            == Ok(m.(pools := m.pools[pk := FundedPool(bank, amount)],
                     accounts := m.accounts[a := Depositor(pk, amount, now)]))
  {
    hide Position.Increase;
    var bs := m.accounts[a].balances;
    EmptyBalancesAre(MAX_LENDING_ACCOUNT_BALANCES);
    assert FindBalance(bs, pk) == None && FirstEmptyFrom(bs, 0) == Some(0);
    assert AccrueAt(m, pk, now).value == m by { assert m.PutPool(pk, m.pools[pk]) == m; }
    FreshIncrease(bank, pk, amount, now);
    NoFee(amount);
    var b := FreshBalance(pk, now).(assetShares := amount * ONE);
    assert bs[0 := b] == Depositor(pk, amount, now).balances;
    var m1 := m.Put(pk, EmptyPool(bank.(totalAssetShares := amount * ONE)), a, 0, b);
    assert PayIn(m, a, pk, amount * ONE, AnyIncrease, true, now) == Ok(m1);
    assert m1.accounts == m.accounts[a := Depositor(pk, amount, now)];
    assert m1.PutPool(pk, FundedPool(bank, amount)).pools == m.pools[pk := FundedPool(bank, amount)];
  }

  /** Into every bank added with a valid configuration, a new account can deposit any
      amount that the limit allows, and the vault then holds exactly that. */
  lemma FirstDeposit(pk: nat, config: BankConfig, decimals: nat, amount: nat, now: nat)
    requires config.Valid() && config.operationalState == Operational
    requires amount <= U64_MAX && (amount < config.depositLimit || config.depositLimit == U64_MAX)
    ensures var actions := [AAddBank(pk, config, decimals, now), ACreateAccount, ADeposit(0, pk, amount, NO_FEE, now)];
            var m := Run(EMPTY_MARKET, actions);
            && PermittedRun(EMPTY_MARKET, actions) && BookedRun(EMPTY_MARKET, actions) && Reachable(m)
            && m.pools.Keys == {pk} && m.pools[pk].vault == amount && |m.accounts| == 1
            && SumAccounts(m.accounts, pk, AssetQ) == amount * ONE
  {
    hide Inv, LeadsTo, Run, PermittedRun, BookedRun, SumAccounts;
    var actions := [AAddBank(pk, config, decimals, now), ACreateAccount, ADeposit(0, pk, amount, NO_FEE, now)];
    var bank := NewBank(config, decimals, now);
    var m1 := Market(map[pk := EmptyPool(bank)], [], EMPTY_MARKET.fees);
    var m2 := m1.(accounts := [NewAccount()]);
    var m3 := Market(map[pk := FundedPool(bank, amount)], [Depositor(pk, amount, now)], EMPTY_MARKET.fees);
    Adds(EMPTY_MARKET, pk, config, decimals, now);
    assert EMPTY_MARKET.pools[pk := EmptyPool(bank)] == map[pk := EmptyPool(bank)];
    Creates(m1);
    assert m1.accounts + [NewAccount()] == [NewAccount()];
    Deposits(m2, 0, pk, bank, amount, now);
    assert m2.pools[pk := FundedPool(bank, amount)] == m3.pools;
    assert m2.accounts[0 := Depositor(pk, amount, now)] == m3.accounts;
    RunThrough([EMPTY_MARKET, m1, m2, m3], actions);
    assert Reachable(m3);
    SharesAgree(m3, pk);
  }

  lemma Adds(m: Market, pk: nat, config: BankConfig, decimals: nat, now: nat)
    requires pk !in m.pools && config.Valid()
    ensures LeadsTo(m, AAddBank(pk, config, decimals, now),
                    m.(pools := m.pools[pk := EmptyPool(NewBank(config, decimals, now))]))
  {
  }

  lemma Creates(m: Market)
    ensures LeadsTo(m, ACreateAccount, m.(accounts := m.accounts + [NewAccount()]))
  {
    hide EmptyBalances;
  }

  lemma Deposits(m: Market, a: nat, pk: nat, bank: BankState, amount: nat, now: nat)
    requires a < |m.accounts| && m.accounts[a] == NewAccount() && pk in m.pools && m.pools[pk] == EmptyPool(bank)
    requires bank.assetShareValue == bank.liabilityShareValue == ONE
    requires bank.totalAssetShares == bank.totalLiabilityShares == 0
    requires bank.config.operationalState == Operational && amount <= U64_MAX && bank.lastUpdate == now
    requires amount < bank.config.depositLimit || bank.config.depositLimit == U64_MAX
    ensures LeadsTo(m, ADeposit(a, pk, amount, NO_FEE, now),
                    m.(pools := m.pools[pk := FundedPool(bank, amount)],
                       accounts := m.accounts[a := Depositor(pk, amount, now)]))
  {
    hide Deposit, EmptyBalances;
    DepositInto(m, a, pk, bank, amount, now);
  }

  // ------------------------------------------------- a lender and a borrower

  function Bank(config: BankConfig): BankState {
    NewBank(config, 0, 0)
  }

  /** A bank of which `loan` of `deposit` tokens are lent out. */
  function LentOut(config: BankConfig, deposit: nat, loan: nat): BankState {
    Bank(config).(totalAssetShares := deposit * ONE, totalLiabilityShares := loan * ONE)
  }

  function Owned(collateral: nat): BalanceState {
    FreshBalance(2, 0).(assetShares := collateral * ONE)
  }

  function Owed(loan: nat): BalanceState {
    FreshBalance(1, 0).(liabilityShares := loan * ONE)
  }

  /** An account with two balances, in its first slots. */
  function Holder(first: BalanceState, second: BalanceState): Account {
    Account([first, second] + EmptyBalances(MAX_LENDING_ACCOUNT_BALANCES - 2), false, false)
  }

  function Borrower(collateral: nat, loan: nat): Account {
    Holder(Owned(collateral), Owed(loan))
  }

  /** The sure prices of what is owed and of the collateral. */
  function Quotes(debt: nat, collateral: nat): map<nat, Feed> {
    map[1 := Sure(debt), 2 := Sure(collateral)]
  }

  function Sure(price: nat): Feed {
    Pyth(PythPrice(price, 0, 0), PythPrice(price, 0, 0))
  }

  /** One account has `deposit` tokens in bank 1, the other `collateral` tokens in bank 2. */
  function BeforeBorrow(fees: ProgramFees, config: BankConfig, deposit: nat, collateral: nat): Market {
    Market(map[1 := FundedPool(Bank(config), deposit), 2 := FundedPool(Bank(config), collateral)],
           [Depositor(1, deposit, 0), Depositor(2, collateral, 0)], fees)
  }

  /** The second has borrowed `loan` tokens of bank 1. */
  function AfterBorrow(config: BankConfig, deposit: nat, collateral: nat, loan: nat): Market
    requires loan <= deposit
  {
    Market(map[1 := Pool(LentOut(config, deposit, loan), deposit - loan, 0, 0, 0, 0, 0),
               2 := FundedPool(Bank(config), collateral)],
           [Depositor(1, deposit, 0), Borrower(collateral, loan)], EMPTY_MARKET.fees)
  }

  /** Open for business, without limits. */
  predicate IsOpen(config: BankConfig) {
    && config.Valid() && config.operationalState == Operational && config.depositLimit == config.borrowLimit == U64_MAX
    && config.riskTier == Collateral && config.totalAssetValueInitLimit == 0
  }

  lemma Sets(m: Market, fees: ProgramFees)
    ensures LeadsTo(m, ASetProgramFees(fees), m.(fees := fees))
  {
  }

  /** Two banks and two accounts, with nothing in them. */
  lemma EmptyIsReached(fees: ProgramFees, config: BankConfig) returns (ms: seq<Market>, actions: seq<Action>)
    requires IsOpen(config)
    ensures Leads(ms, actions) && |actions| == 5 && ms[0] == EMPTY_MARKET
    ensures ms[5] == Market(map[1 := EmptyPool(Bank(config)), 2 := EmptyPool(Bank(config))],
                            [NewAccount(), NewAccount()], fees)
  {
    hide LeadsTo, EmptyBalances;
    var empty := EmptyPool(Bank(config));
    var m1 := EMPTY_MARKET.(fees := fees);
    var m2 := Market(map[1 := empty], [], fees);
    var m3 := Market(map[1 := empty, 2 := empty], [], fees);
    var m4 := m3.(accounts := [NewAccount()]);
    var m5 := m3.(accounts := [NewAccount(), NewAccount()]);
    Sets(EMPTY_MARKET, fees);
    Adds(m1, 1, config, 0, 0);
    assert m1.pools[1 := empty] == m2.pools;
    Adds(m2, 2, config, 0, 0);
    assert m2.pools[2 := empty] == m3.pools;
    Creates(m3);
    assert m3.accounts + [NewAccount()] == m4.accounts;
    Creates(m4);
    assert m4.accounts + [NewAccount()] == m5.accounts;
    ms := [EMPTY_MARKET, m1, m2, m3, m4, m5];
    actions := [ASetProgramFees(fees), AAddBank(1, config, 0, 0), AAddBank(2, config, 0, 0), ACreateAccount,
                ACreateAccount];
  }

  /** Every such market is reached by seven instructions. */
  lemma BeforeBorrowIsReached(fees: ProgramFees, config: BankConfig, deposit: nat, collateral: nat)
    returns (ms: seq<Market>, actions: seq<Action>)
    requires IsOpen(config) && deposit <= U64_MAX && collateral <= U64_MAX
    ensures Leads(ms, actions) && |actions| == 7 && ms[0] == EMPTY_MARKET
    ensures ms[7] == BeforeBorrow(fees, config, deposit, collateral)
  {
    hide LeadsTo, EmptyBalances, Leads;
    ms, actions := EmptyIsReached(fees, config);
    LeadsCount(ms, actions);
    var bank, m := Bank(config), ms[5];
    var m6 := Market(map[1 := FundedPool(bank, deposit), 2 := EmptyPool(bank)],
                     [Depositor(1, deposit, 0), NewAccount()], fees);
    var m7 := BeforeBorrow(fees, config, deposit, collateral);
    Deposits(m, 0, 1, bank, deposit, 0);
    assert m.pools[1 := FundedPool(bank, deposit)] == m6.pools;
    assert m.accounts[0 := Depositor(1, deposit, 0)] == m6.accounts;
    LeadsOn(ms, actions, ADeposit(0, 1, deposit, NO_FEE, 0), m6);
    ms, actions := ms + [m6], actions + [ADeposit(0, 1, deposit, NO_FEE, 0)];
    Deposits(m6, 1, 2, bank, collateral, 0);
    assert m6.pools[2 := FundedPool(bank, collateral)] == m7.pools;
    assert m6.accounts[1 := Depositor(2, collateral, 0)] == m7.accounts;
    LeadsOn(ms, actions, ADeposit(1, 2, collateral, NO_FEE, 0), m7);
    ms, actions := ms + [m7], actions + [ADeposit(1, 2, collateral, NO_FEE, 0)];
  }

  lemma LeadsCount(ms: seq<Market>, actions: seq<Action>)
    requires Leads(ms, actions)
    ensures |ms| == |actions| + 1
  {
  }

  lemma BeforeBorrowIsReachable(fees: ProgramFees, config: BankConfig, deposit: nat, collateral: nat)
    requires IsOpen(config) && deposit <= U64_MAX && collateral <= U64_MAX
    ensures Reachable(BeforeBorrow(fees, config, deposit, collateral))
  {
    hide LeadsTo, Run, PermittedRun, BookedRun, BeforeBorrow;
    var ms, actions := BeforeBorrowIsReached(fees, config, deposit, collateral);
    RunThrough(ms, actions);
    assert Run(EMPTY_MARKET, actions) == BeforeBorrow(fees, config, deposit, collateral);
  }

  /** Whatever it borrows, if it is healthy then. */
  lemma AfterBorrowIsReachable(config: BankConfig, deposit: nat, collateral: nat, loan: nat, feeds: map<nat, Feed>)
    requires IsOpen(config) && config.rates.originationFee == 0
    requires 0 < loan <= deposit <= U64_MAX && collateral <= U64_MAX
    requires IfHealthy(AfterBorrow(config, deposit, collateral, loan), 1, feeds).Ok?
    ensures Reachable(AfterBorrow(config, deposit, collateral, loan))
  {
    hide LeadsTo, Run, PermittedRun, BookedRun, BeforeBorrow, AfterBorrow, IfHealthy;
    var ms, actions := BeforeBorrowIsReached(EMPTY_MARKET.fees, config, deposit, collateral);
    var borrow, m := ABorrow(1, 1, loan, NO_FEE, feeds, 0), AfterBorrow(config, deposit, collateral, loan);
    Borrows(config, deposit, collateral, loan, feeds);
    LeadsOn(ms, actions, borrow, m);
    RunThrough(ms + [m], actions + [borrow]);
    assert Run(EMPTY_MARKET, actions + [borrow]) == m;
  }

  lemma Borrows(config: BankConfig, deposit: nat, collateral: nat, loan: nat, feeds: map<nat, Feed>)
    requires IsOpen(config) && config.rates.originationFee == 0
    requires 0 < loan <= deposit <= U64_MAX && collateral <= U64_MAX
    requires IfHealthy(AfterBorrow(config, deposit, collateral, loan), 1, feeds).Ok?
    ensures LeadsTo(BeforeBorrow(EMPTY_MARKET.fees, config, deposit, collateral), ABorrow(1, 1, loan, NO_FEE, feeds, 0),
                    AfterBorrow(config, deposit, collateral, loan))
  {
    hide LendOut, IfHealthy, AfterBorrow, AccrualChanges, BankState.AssetAmount, BankState.LiabilityAmount;
    LendsOut(config, deposit, collateral, loan);
    IfHealthyIs(AfterBorrow(config, deposit, collateral, loan), 1, feeds);
  }

  /** Borrowing `loan` and its fee from a position just opened. */
  lemma FreshDecrease(config: BankConfig, deposit: nat, loan: nat)
    requires IsOpen(config) && loan <= deposit <= U64_MAX
    ensures var p := Position(Bank(config).(totalAssetShares := deposit * ONE), FreshBalance(1, 0));
            p.Decrease(loan * ONE, AnyDecrease, 0) == Ok(Position(LentOut(config, deposit, loan), Owed(loan)))
  {
    hide Product, Truncated;
    var p := Position(Bank(config).(totalAssetShares := deposit * ONE), FreshBalance(1, 0));
    UnitValue(0);
    UnitValue(deposit * ONE);
    UnitValue(loan * ONE);
    assert p.ClaimEmissions(0) == Ok(p);
  }

  /** At a share value of one, shares and amounts are the same. */
  lemma UnitValue(x: int)
    ensures Product(x, ONE) == x && Truncated(x * ONE, ONE) == x
  {
    if x < 0 {
      assert -(x * ONE) == -x * ONE;
    }
  }

  lemma BorrowerSlot(m: Market, collateral: nat)
    requires 1 < |m.accounts| && m.accounts[1] == Depositor(2, collateral, 0)
    ensures var bs := m.accounts[1].balances; FindBalance(bs, 1) == None && FirstEmptyFrom(bs, 0) == Some(1)
    ensures forall b :: m.accounts[1].balances[1 := b] == Holder(Owned(collateral), b).balances
  {
    hide EmptyBalances;
    EmptyBalancesAre(MAX_LENDING_ACCOUNT_BALANCES - 1);
    NextEmpty();
    var bs := m.accounts[1].balances;
    assert bs[0] == Owned(collateral) && bs[1] == EMPTY_BALANCE;
    assert forall b :: bs[1 := b] == [Owned(collateral), b] + EmptyBalances(MAX_LENDING_ACCOUNT_BALANCES - 2);
  }

  lemma NextEmpty()
    ensures EmptyBalances(MAX_LENDING_ACCOUNT_BALANCES - 1)
            == [EMPTY_BALANCE] + EmptyBalances(MAX_LENDING_ACCOUNT_BALANCES - 2)
  {
  }

  lemma NoTimePassed(m: Market, pk: nat, now: nat)
    requires pk in m.pools && m.pools[pk].bank.lastUpdate == now
    ensures AccrueAt(m, pk, now) == Ok(m)
  {
    assert m.PutPool(pk, m.pools[pk]) == m;
  }

  lemma LendsOut(config: BankConfig, deposit: nat, collateral: nat, loan: nat)
    requires IsOpen(config) && config.rates.originationFee == 0
    requires 0 < loan <= deposit <= U64_MAX && collateral <= U64_MAX
    ensures LendOut(BeforeBorrow(EMPTY_MARKET.fees, config, deposit, collateral), 1, 1, loan, NO_FEE, 0)
            == Ok(AfterBorrow(config, deposit, collateral, loan))
  {
    hide Position.Decrease, EmptyBalances, FindBalance, FirstEmptyFrom, AccrueAt, PreFee, Received;
    var m := BeforeBorrow(EMPTY_MARKET.fees, config, deposit, collateral);
    BorrowerSlot(m, collateral);
    NoTimePassed(m, 1, 0);
    NoFee(loan);
    FreshDecrease(config, deposit, loan);
    var pool := FundedPool(Bank(config), deposit).(bank := LentOut(config, deposit, loan));
    var m1 := m.Put(1, pool, 1, 1, Owed(loan));
    assert PayOut(m, 1, 1, loan * ONE, AnyDecrease, true, 0) == Ok(m1);
    assert m1.accounts == AfterBorrow(config, deposit, collateral, loan).accounts;
    assert m1.PutPool(1, pool.(vault := deposit - loan)).pools == AfterBorrow(config, deposit, collateral, loan).pools;
  }

  lemma NoFee(amount: nat)
    ensures Received(NO_FEE, amount) == amount && PreFee(NO_FEE, amount) == Ok(amount)
  {
  }

  // ----------------------------------------------------- health of the borrower

  lemma {:induction false} NoExposures(m: Market, n: nat, feeds: map<nat, Feed>)
    ensures ExposuresOf(m, EmptyBalances(n), feeds) == []
  {
    if n != 0 {
      assert EmptyBalances(n)[1..] == EmptyBalances(n - 1);
      NoExposures(m, n - 1, feeds);
    }
  }

  lemma HolderExposures(m: Market, a: nat, first: BalanceState, second: BalanceState, feeds: map<nat, Feed>)
    requires a < |m.accounts| && m.accounts[a] == Holder(first, second)
    requires first.active && first.bankPk == 2 && second.active && second.bankPk == 1
    requires 1 in m.pools && 2 in m.pools && 1 in feeds && 2 in feeds
    ensures Exposures(m, a, feeds) == [Exposure(first, m.pools[2].bank, Some(feeds[2])),
                                       Exposure(second, m.pools[1].bank, Some(feeds[1]))]
  {
    hide EmptyBalances;
    var rest := EmptyBalances(MAX_LENDING_ACCOUNT_BALANCES - 2);
    NoExposures(m, MAX_LENDING_ACCOUNT_BALANCES - 2, feeds);
    var bs := m.accounts[a].balances;
    assert bs[1..] == [second] + rest && bs[1..][1..] == rest;
    assert ExposuresOf(m, bs[1..], feeds) == [Exposure(second, m.pools[1].bank, Some(feeds[1]))] + [];
  }

  lemma SurePrice(price: nat, kind: PriceType, bias: Bias)
    requires price <= 1000
    ensures PriceOfType(Sure(price), kind, bias) == Ok(price * ONE)
  {
    assert Interval(Sure(price), kind) == Ok(0) && Quoted(Sure(price), kind) == Ok(price * ONE);
  }

  /** A value without decimals at a sure price. */
  lemma WholeValue(amount: int, price: nat, weight: int)
    requires 0 <= amount <= 10_000 * ONE && price <= 1000 && 0 <= weight <= 2 * ONE
    ensures CalcValue(amount, price * ONE, 0, Some(weight)) == Ok(Product(amount, weight) * price)
    ensures 0 <= Product(amount, weight) <= 20_000 * ONE && 0 <= Product(amount, weight) * price <= 20_000_000 * ONE
  {
    hide Truncated;
    ProductBounds(amount, weight);
    Scale(amount, 10_000 * ONE, weight);
    var w := Product(amount, weight);
    Scale(0, price, w);
    Scale(price, 1000, w);
    assert Product(w, price * ONE) == w * price by { assert w * (price * ONE) == w * price * ONE; }
    UnitValue(w * price);
  }

  /** The weighted values of a deposit and of a debt at sure prices. */
  lemma OwnedWorth(e: Exposure, price: nat, req: Requirement)
    requires e.balance.Sound() && ONE <= e.balance.assetShares <= 10_000 * ONE && e.bank.assetShareValue == ONE
    requires IsOpen(e.bank.config) && e.bank.mintDecimals == 0 && e.bank.config.assetWeightMaint <= 2 * ONE
    requires e.feed == Some(Sure(price)) && price <= 1000
    ensures var v := Product(e.balance.assetShares, Weight(e.bank.config, req, Assets)) * price;
            e.WeightedValues(req) == Ok((v, 0)) && 0 <= v <= 20_000_000 * ONE
  {
    hide PriceOfType, CalcValue, Product;
    SurePrice(price, PriceTypeOf(req), Low);
    UnitValue(e.balance.assetShares);
    WholeValue(e.balance.assetShares, price, Weight(e.bank.config, req, Assets));
  }

  lemma OwedWorth(e: Exposure, price: nat, req: Requirement)
    requires e.balance.Sound() && ONE <= e.balance.liabilityShares <= 10_000 * ONE && e.bank.liabilityShareValue == ONE
    requires IsOpen(e.bank.config) && e.bank.mintDecimals == 0 && e.bank.config.liabilityWeightInit <= 2 * ONE
    requires e.feed == Some(Sure(price)) && price <= 1000
    ensures var v := Product(e.balance.liabilityShares, Weight(e.bank.config, req, Liabilities)) * price;
            e.WeightedValues(req) == Ok((0, v)) && 0 <= v <= 20_000_000 * ONE
  {
    hide PriceOfType, CalcValue, Product;
    SurePrice(price, PriceTypeOf(req), High);
    UnitValue(e.balance.liabilityShares);
    WholeValue(e.balance.liabilityShares, price, Weight(e.bank.config, req, Liabilities));
  }

  lemma TwoExposures(es: seq<Exposure>, req: Requirement, owned: int, owed: int)
    requires |es| == 2 && es[0].WeightedValues(req) == Ok((owned, 0)) && es[1].WeightedValues(req) == Ok((0, owed))
    requires 0 <= owned <= 20_000_000 * ONE && 0 <= owed <= 20_000_000 * ONE
    ensures HealthComponents(es, req) == Ok((owned, owed)) && MaintenanceHealthIs(es, req, owned - owed)
  {
    hide Exposure.WeightedValues;
    assert es[..1] == [es[0]] && [es[0]][..0] == [];
    assert HealthComponents([es[0]], req) == Ok((owned, 0));
  }

  predicate MaintenanceHealthIs(es: seq<Exposure>, req: Requirement, health: int) {
    req == Maintenance ==> MaintenanceHealth(es) == Ok(health)
  }

  /** Weights that the valuations above are stated for. */
  predicate Weighs(config: BankConfig) {
    IsOpen(config) && config.assetWeightMaint <= 2 * ONE && config.liabilityWeightInit <= 2 * ONE
  }

  /** What the borrower has and owes. */
  lemma BorrowerHealth(config: BankConfig, deposit: nat, collateral: nat, loan: nat, debtPrice: nat, price: nat,
                       req: Requirement)
    requires Weighs(config) && 0 < loan <= deposit && loan <= 10_000 && 0 < collateral <= 10_000
    requires debtPrice <= 1000 && price <= 1000
    ensures var es := Exposures(AfterBorrow(config, deposit, collateral, loan), 1, Quotes(debtPrice, price));
            var owned := collateral * Weight(config, req, Assets) * price;
            var owed := loan * Weight(config, req, Liabilities) * debtPrice;
            && HealthComponents(es, req) == Ok((owned, owed)) && MaintenanceHealthIs(es, req, owned - owed)
            && |es| == 2 && es[0].balance == Owned(collateral) && es[1].balance == Owed(loan)
            && es[0].bank.config == es[1].bank.config == config
  {
    hide HealthComponents, Exposures, EmptyBalances, Exposure.WeightedValues, Product, MaintenanceHealthIs;
    var m, feeds := AfterBorrow(config, deposit, collateral, loan), Quotes(debtPrice, price);
    HolderExposures(m, 1, Owned(collateral), Owed(loan), feeds);
    var es := Exposures(m, 1, feeds);
    OwnedWorth(es[0], price, req);
    OwedWorth(es[1], debtPrice, req);
    Whole(collateral, Weight(config, req, Assets));
    Whole(loan, Weight(config, req, Liabilities));
    TwoExposures(es, req, collateral * Weight(config, req, Assets) * price,
                 loan * Weight(config, req, Liabilities) * debtPrice);
  }

  lemma Whole(n: nat, weight: int)
    ensures Product(n * ONE, weight) == n * weight
  {
    assert n * ONE * weight == n * weight * ONE;
  }

  /** The borrower is healthy if its weighted collateral covers its weighted debt. */
  lemma BorrowIsHealthy(config: BankConfig, deposit: nat, collateral: nat, loan: nat, debtPrice: nat, price: nat)
    requires Weighs(config) && 0 < loan <= deposit && loan <= 10_000 && 0 < collateral <= 10_000
    requires debtPrice <= 1000 && price <= 1000
    requires loan * config.liabilityWeightInit * debtPrice <= collateral * config.assetWeightInit * price
    ensures IfHealthy(AfterBorrow(config, deposit, collateral, loan), 1, Quotes(debtPrice, price)).Ok?
  {
    hide HealthComponents, Exposures, EmptyBalances;
    BorrowerHealth(config, deposit, collateral, loan, debtPrice, price, Initial);
  }

  // --------------------------------------- a loss that deposits do not bear

  /** Half of the tokens lent costs 50% a year, all of them 100%; insurance takes 1/64
      of the debt on top. */
  function Terms(): BankConfig {
    var rates := RateConfig(ONE / 2, ONE / 2, ONE, ONE / 64, 0, 0, 0, 0);
    BankConfig(ONE, ONE, ONE, ONE, U64_MAX, U64_MAX, rates, Operational, Collateral, 0)
  }

  /** All of 1000 tokens are lent out, against 1000 of another kind. */
  function AllLent(): Market {
    AfterBorrow(Terms(), 1000, 1000, 1000)
  }

  /** The bank one year later. */
  function BankAfterYear(): BankState {
    LentOut(Terms(), 1000, 1000).(assetShareValue := 2 * ONE, liabilityShareValue := 2 * ONE + ONE / 64,
                                  insuranceFees := 1000 * (ONE / 64), lastUpdate := YEAR)
  }

  lemma AllLentIsReachable()
    ensures Reachable(AllLent())
  {
    hide Reachable, IfHealthy, EmptyBalances;
    BorrowIsHealthy(Terms(), 1000, 1000, 1000, 1, 1);
    AfterBorrowIsReachable(Terms(), 1000, 1000, 1000, Quotes(1, 1));
  }

  lemma RatesWhenLentOut()
    ensures InterestRates(Terms().rates, EMPTY_MARKET.fees, ONE) == Ok(Rates(ONE, ONE + ONE / 64, 0, ONE / 64, 0))
  {
    hide RateCurve;
    CurveAnchors(Terms().rates);
    assert CheckedMul(ONE, ONE) == Ok(ONE);
  }

  lemma ChangesOfYear()
    ensures AccrualChanges(YEAR, 1000 * ONE, 1000 * ONE, Terms().rates, EMPTY_MARKET.fees, ONE, ONE)
            == Ok(Accrual(2 * ONE, 2 * ONE + ONE / 64, 1000 * (ONE / 64), 0, 0))
  {
    hide InterestRates;
    RatesWhenLentOut();
    assert CheckedDiv(1000 * ONE, 1000 * ONE) == Ok(ONE);
    assert AccruedValue(ONE, YEAR, ONE) == Ok(2 * ONE);
    assert AccruedValue(ONE + ONE / 64, YEAR, ONE) == Ok(2 * ONE + ONE / 64);
    assert InterestPayment(ONE / 64, YEAR, 1000 * ONE) == Ok(1000 * (ONE / 64));
  }

  lemma YearOfInterest()
    ensures LentOut(Terms(), 1000, 1000).AccrueInterest(YEAR, EMPTY_MARKET.fees) == Ok(BankAfterYear())
  {
    hide AccrualChanges;
    ChangesOfYear();
  }

  /** When the collateral is worth nothing after a year, the debt has outgrown all
      deposits by 1/64 of what was lent: settling it is accepted, and deposits are
      worth less than nothing. */
  lemma DepositsBelowZero()
    ensures Reachable(AllLent())
    ensures var r := HandleBankruptcy(AllLent(), 1, 1, 0, NO_FEE, Quotes(1, 0), YEAR);
            && r.Ok? && 1 in r.value.pools && r.value.pools[1].bank.assetShareValue == -(ONE / 64) && !Inv(r.value)
  {
    hide Inv, Reachable, CheckBankrupt, SettleBadDebt, Quotes, AllLent;
    AllLentIsReachable();
    BorrowerIsBankrupt();
    DebtIsSettled();
    var m' := SettleBadDebt(AllLent(), 1, 1, 0, NO_FEE, YEAR).value;
    if Inv(m') {
      PoolIsOk(m', 1);
    }
  }

  lemma BorrowerIsBankrupt()
    ensures !InFlashloan(AllLent(), 1)
    ensures CheckBankrupt(false, Exposures(AllLent(), 1, Quotes(1, 0))).Ok?
  {
    hide HealthComponents, Exposures, EmptyBalances;
    BorrowerHealth(Terms(), 1000, 1000, 1000, 1, 0, Equity);
  }

  /** The debt after a year. */
  const DEBT: int := 1000 * (2 * ONE + ONE / 64)

  lemma RepayAtNegativeValue()
    ensures var p := Position(BankAfterYear().(assetShareValue := -(ONE / 64)), Owed(1000));
            p.Increase(DEBT, RepayOnly, YEAR).Ok?
  {
    var p := Position(BankAfterYear().(assetShareValue := -(ONE / 64)), Owed(1000));
    assert p.ClaimEmissions(YEAR) == Ok(p.(balance := p.balance.(lastUpdate := YEAR)));
  }

  /** The market with a year of interest charged to bank 1. */
  function AfterYear(): Market {
    AllLent().(pools := AllLent().pools[1 := EmptyPool(BankAfterYear())])
  }

  lemma HolderSlots(first: BalanceState, second: BalanceState)
    requires first.active && first.bankPk == 2 && second.active && second.bankPk == 1
    ensures var bs := Holder(first, second).balances;
            && FindBalance(bs, 1) == Some(1) && FindBalance(bs, 2) == Some(0) && bs[0] == first && bs[1] == second
  {
    hide EmptyBalances;
    EmptyBalancesAre(MAX_LENDING_ACCOUNT_BALANCES - 2);
    var bs := Holder(first, second).balances;
    assert bs[0] == first && bs[1] == second;
    forall i | 2 <= i < |bs|
      ensures !bs[i].active
    {
      assert bs[i] == EmptyBalances(MAX_LENDING_ACCOUNT_BALANCES - 2)[i - 2];
    }
  }

  lemma DebtAfterYear()
    ensures AccrueAt(AllLent(), 1, YEAR) == Ok(AfterYear()) && BadDebt(AfterYear(), 1, 1) == Ok(DEBT)
  {
    hide BankState.AccrueInterest, EmptyBalances, FindBalance;
    YearOfInterest();
    HolderSlots(Owned(1000), Owed(1000));
  }

  lemma LossTaken()
    ensures BankAfterYear().SocializeLoss(DEBT) == Ok(BankAfterYear().(assetShareValue := -(ONE / 64)))
  {
  }

  lemma DebtRepaid(m: Market)
    requires 1 in m.pools && m.pools[1] == EmptyPool(BankAfterYear().(assetShareValue := -(ONE / 64)))
    requires 1 < |m.accounts| && m.accounts[1] == Borrower(1000, 1000)
    ensures PayIn(m, 1, 1, DEBT, RepayOnly, true, YEAR).Ok?
  {
    hide Position.Increase, EmptyBalances, FindBalance;
    HolderSlots(Owned(1000), Owed(1000));
    RepayAtNegativeValue();
  }

  /** Without insurance a debt is socialized and repaid. */
  lemma UninsuredWriteOff(m: Market, a: nat, pk: nat, debt: nat, bank: BankState, now: nat)
    requires pk in m.pools && 0 <= m.pools[pk].vault && m.pools[pk].bank.SocializeLoss(debt) == Ok(bank)
    ensures WriteOff(m, a, pk, debt, 0, NO_FEE, now)
            == PayIn(m.PutPool(pk, m.pools[pk].(bank := bank)), a, pk, debt, RepayOnly, true, now)
  {
    hide PayIn, BankState.SocializeLoss, Received, PreFee;
    NoFee(0);
    assert Covered(debt, 0, NO_FEE) == 0 && ToU64(Ceil(0)) == Ok(0);
    assert FillVault(m, pk, NO_FEE, 0) == Ok(m) by { assert m.PutPool(pk, m.pools[pk]) == m; }
  }

  lemma DebtWritesOff()
    ensures var r := WriteOff(AfterYear(), 1, 1, DEBT, 0, NO_FEE, YEAR);
            r.Ok? && 1 in r.value.pools && r.value.pools[1].bank.assetShareValue == -(ONE / 64)
  {
    hide PayIn, WriteOff, EmptyBalances, BankState.SocializeLoss, Borrower;
    var m, bank := AfterYear(), BankAfterYear().(assetShareValue := -(ONE / 64));
    LossTaken();
    UninsuredWriteOff(m, 1, 1, DEBT, bank, YEAR);
    var m2 := m.PutPool(1, m.pools[1].(bank := bank));
    DebtRepaid(m2);
    PayInKeepsValue(m2, 1, 1, DEBT, RepayOnly, true, YEAR);
  }

  lemma DebtIsSettled()
    ensures var r := SettleBadDebt(AllLent(), 1, 1, 0, NO_FEE, YEAR);
            r.Ok? && 1 in r.value.pools && r.value.pools[1].bank.assetShareValue == -(ONE / 64)
  {
    hide AccrueAt, BadDebt, WriteOff, AfterYear, AllLent;
    DebtAfterYear();
    DebtWritesOff();
  }

  // ------------------------------------------------ a fee that is dropped

  /** One token of fee on 1024 borrowed. */
  function Charging(): BankConfig {
    Terms().(rates := Terms().rates.(originationFee := ONE / 1024))
  }

  /** Nothing keeps the program's share of fees from being the least number there is. */
  const ODD_FEES := ProgramFees(false, -MAX - 1, 0)

  function BeforeFee(): Market {
    BeforeBorrow(ODD_FEES, Charging(), 3000, 2000)
  }

  function FeeBank(): BankState {
    LentOut(Charging(), 3000, 1025)
  }

  /** After a borrow of 1024 tokens that costs 1025. */
  function AfterFee(): Market {
    BeforeFee().(pools := BeforeFee().pools[1 := Pool(WithOriginationFee(FeeBank(), ONE, -MAX - 1), 1976, 0, 0, 0, 0, 0)],
                 accounts := [Depositor(1, 3000, 0), Borrower(2000, 1025)])
  }

  lemma LendsAtFee()
    ensures LendOut(BeforeFee(), 1, 1, 1024, NO_FEE, 0) == Ok(AfterFee())
  {
    hide Position.Decrease, EmptyBalances, FindBalance, FirstEmptyFrom, AccrueAt, PreFee, Received, WithOriginationFee;
    var m := BeforeFee();
    BorrowerSlot(m, 2000);
    NoTimePassed(m, 1, 0);
    NoFee(1024);
    FreshDecrease(Charging(), 3000, 1025);
    var bank := Bank(Charging()).(totalAssetShares := 3000 * ONE);
    assert OriginationFee(bank, 1024) == Ok(ONE);
    assert CheckedMul(ONE, -MAX - 1) == Ok(-MAX - 1);
    var pool := FundedPool(Bank(Charging()), 3000).(bank := FeeBank());
    var m1 := m.Put(1, pool, 1, 1, Owed(1025));
    assert PayOut(m, 1, 1, 1025 * ONE, AnyDecrease, true, 0) == Ok(m1);
    assert m1.accounts == AfterFee().accounts;
    var m2 := m1.PutPool(1, pool.(vault := 1976));
    assert DrainVault(m1, 1, 1024) == Ok(m2);
    var charged := pool.(vault := 1976, bank := WithOriginationFee(FeeBank(), ONE, -MAX - 1));
    assert m2.PutPool(1, charged).pools == AfterFee().pools;
  }

  lemma FeePayerIsHealthy()
    ensures IfHealthy(AfterFee(), 1, Quotes(1, 1)) == Ok(AfterFee())
  {
    hide HealthComponents, Exposures, EmptyBalances, Exposure.WeightedValues, Product, MaintenanceHealthIs;
    var m, feeds := AfterFee(), Quotes(1, 1);
    HolderExposures(m, 1, Owned(2000), Owed(1025), feeds);
    var es := Exposures(m, 1, feeds);
    OwnedWorth(es[0], 1, Initial);
    OwedWorth(es[1], 1, Initial);
    Whole(2000, ONE);
    Whole(1025, ONE);
    TwoExposures(es, Initial, 2000 * ONE, 1025 * ONE);
  }

  /** In a reachable market a borrow is accepted that charges one token of fee and books
      less than nothing of it: a token and an ulp are owed to nobody. */
  lemma FeeIsDropped()
    ensures Reachable(BeforeFee())
    ensures Borrow(BeforeFee(), 1, 1, 1024, NO_FEE, Quotes(1, 1), 0) == Ok(AfterFee())
    ensures Net(AfterFee().pools[1]) - Net(BeforeFee().pools[1]) == (ONE + 1) * ONE
  {
    hide LendOut, IfHealthy, Reachable, EmptyBalances;
    BeforeBorrowIsReachable(ODD_FEES, Charging(), 3000, 2000);
    LendsAtFee();
    FeePayerIsHealthy();
  }

  // ------------------------------------------------ an account that is short

  /** An account has borrowed `loan` of 3000 tokens against 1100 of another kind. */
  function Loan(config: BankConfig, loan: nat): Market
    requires loan <= 1900
  {
    AfterBorrow(config, 3000, 1100, loan)
  }

  /** A haircut of 1% on collateral and a markup of 1% on debt. */
  function Tight(): BankConfig {
    var (w, v) := (ONE / 100 * 99, ONE / 100 * 101 + 101);
    BankConfig(w, w, v, v, U64_MAX, U64_MAX, Terms().rates, Operational, Collateral, 0)
  }

  function TightMarket(): Market {
    Loan(Tight(), 1000)
  }

  /** Its maintenance health when its collateral has lost a tenth of its price. */
  const SHORT: int := 1100 * (ONE / 100 * 99) * 9 - 1000 * (ONE / 100 * 101 + 101) * 10

  lemma TightIsReachable()
    ensures Reachable(TightMarket())
  {
    hide Reachable, IfHealthy, EmptyBalances;
    BorrowIsHealthy(Tight(), 3000, 1100, 1000, 10, 10);
    AfterBorrowIsReachable(Tight(), 3000, 1100, 1000, Quotes(10, 10));
  }

  lemma MayBeLiquidated()
    ensures SHORT < 0 && MaintenanceHealth(Exposures(TightMarket(), 1, Quotes(10, 9))) == Ok(SHORT)
    ensures CheckPreLiquidation(false, Exposures(TightMarket(), 1, Quotes(10, 9)), 1) == Ok(SHORT)
  {
    hide HealthComponents, Exposures, EmptyBalances, MaintenanceHealth;
    BorrowerHealth(Tight(), 3000, 1100, 1000, 10, 9, Maintenance);
    var es := Exposures(TightMarket(), 1, Quotes(10, 9));
    assert es[1..] == [es[1]];
    assert FindExposure(es, 1) == FindExposure([es[1]], 1) == Some(es[1]);
  }

  /** The debt quoted for collateral at nine tenths of its price. */
  lemma QuoteInTenths(amount: nat, assetBank: BankState, debtBank: BankState, discount: int)
    requires 0 < amount <= 1100 && 0 <= discount <= ONE && assetBank.mintDecimals == debtBank.mintDecimals == 0
    ensures LiquidationQuote(amount, assetBank, 9 * ONE, debtBank, 10 * ONE, discount) == Ok(amount * discount * 9 / 10)
    ensures 0 <= amount * discount * 9 / 10 <= amount * ONE
  {
    hide Product;
    Scale(0, discount, amount);
    Scale(discount, ONE, amount);
    Whole(amount, discount);
    WholeValue(amount * ONE, 9, discount);
    var v := amount * discount * 9;
    UnitValue(v);
    assert Truncated(v * ONE, 10 * ONE) == v / 10;
  }

  lemma SureFeed(debt: nat, collateral: nat)
    requires debt <= 1000 && collateral <= 1000
    ensures FeedPrice(Quotes(debt, collateral), 2, Low) == Ok(collateral * ONE)
    ensures FeedPrice(Quotes(debt, collateral), 1, High) == Ok(debt * ONE)
  {
    hide PriceOfType;
    SurePrice(collateral, RealTime, Low);
    SurePrice(debt, RealTime, High);
  }

  /** What the liquidator takes over, and what the account is relieved of. */
  lemma AmountsInTenths(config: BankConfig, loan: nat, amount: nat) returns (paid: int, received: int)
    requires 0 < amount <= 1100 && loan <= 1900
    ensures LiquidationAmounts(Loan(config, loan), 2, 1, amount, Quotes(10, 9)) == Ok((paid, received))
    ensures received == amount * RELIEF * 9 / 10 && 0 <= received <= paid <= amount * ONE && received <= 990 * ONE
  {
    hide LiquidationQuote, FeedPrice, EmptyBalances;
    SureFeed(10, 9);
    var a, b := Bank(config).(totalAssetShares := 1100 * ONE), LentOut(config, 3000, loan);
    QuoteInTenths(amount, a, b, ONE - LIQUIDATION_LIQUIDATOR_FEE);
    QuoteInTenths(amount, a, b, RELIEF);
    InsuranceFeeAssertionHolds(Loan(config, loan), 2, 1, amount, Quotes(10, 9));
    paid, received := amount * (ONE - LIQUIDATION_LIQUIDATOR_FEE) * 9 / 10, amount * RELIEF * 9 / 10;
    Scale(amount, 1100, RELIEF);
  }

  // ------------------------------------------------------- the swap succeeds

  /** A bank of unit share values in which nothing earns emissions. */
  predicate IsUnit(bank: BankState) {
    && bank.assetShareValue == bank.liabilityShareValue == ONE && IsOpen(bank.config)
    && !bank.lendingEmissions && !bank.borrowEmissions
    && 0 <= bank.totalLiabilityShares <= bank.totalAssetShares <= U64_MAX * ONE
  }

  lemma UnitClaim(p: Position, now: nat)
    requires IsUnit(p.bank) && p.balance.Sound()
    ensures p.ClaimEmissions(now) == Ok(p.(balance := p.balance.(lastUpdate := now)))
  {
  }

  lemma UnitWithdraw(p: Position, delta: int, kind: DecreaseType, now: nat)
    requires IsUnit(p.bank) && p.balance.Sound() && 0 <= delta <= p.balance.assetShares <= U64_MAX * ONE
    requires p.balance.liabilityShares <= U64_MAX * ONE && p.bank.totalLiabilityShares <= p.bank.totalAssetShares - delta
    requires kind == WithdrawOnly || kind == BypassBorrowLimit
    ensures p.Decrease(delta, kind, now)
            == Ok(Position(p.bank.(totalAssetShares := p.bank.totalAssetShares - delta),
                           p.balance.(assetShares := p.balance.assetShares - delta, lastUpdate := now)))
  {
    hide Product, Truncated, Position.ClaimEmissions;
    UnitClaim(p, now);
    UnitValue(p.balance.assetShares);
    UnitValue(delta);
    UnitValue(0);
    UnitValue(p.bank.totalAssetShares - delta);
    UnitValue(p.bank.totalLiabilityShares);
  }

  lemma UnitDeposit(p: Position, delta: int, now: nat)
    requires IsUnit(p.bank) && p.balance.Sound() && p.balance.liabilityShares == 0
    requires 0 <= delta <= U64_MAX * ONE && p.balance.assetShares <= U64_MAX * ONE
    ensures p.Increase(delta, BypassDepositLimit, now)
            == Ok(Position(p.bank.(totalAssetShares := p.bank.totalAssetShares + delta),
                           p.balance.(assetShares := p.balance.assetShares + delta, lastUpdate := now)))
  {
    hide Product, Truncated, Position.ClaimEmissions;
    UnitClaim(p, now);
    UnitValue(0);
    UnitValue(delta);
  }

  lemma UnitRepay(p: Position, delta: int, kind: IncreaseType, now: nat)
    requires IsUnit(p.bank) && p.balance.Sound() && 0 <= delta <= p.balance.liabilityShares <= U64_MAX * ONE
    requires p.balance.assetShares <= U64_MAX * ONE
    requires kind == AnyIncrease || kind == RepayOnly
    ensures p.Increase(delta, kind, now)
            == Ok(Position(p.bank.(totalLiabilityShares := p.bank.totalLiabilityShares - delta),
                           p.balance.(liabilityShares := p.balance.liabilityShares - delta, lastUpdate := now)))
  {
    hide Product, Truncated, Position.ClaimEmissions;
    UnitClaim(p, now);
    UnitValue(p.balance.liabilityShares);
    UnitValue(0);
    UnitValue(delta);
  }

  /** The market after each of the four balance changes. */
  function Swap1(config: BankConfig, loan: nat, paid: int): Market
    requires loan <= 1900
  {
    var m := Loan(config, loan);
    m.Put(1, m.pools[1].(bank := m.pools[1].bank.(totalAssetShares := 3000 * ONE - paid)), 0, 0,
          FreshBalance(1, 0).(assetShares := 3000 * ONE - paid))
  }

  function Swap2(config: BankConfig, loan: nat, amount: nat, paid: int): Market
    requires loan <= 1900
  {
    var m := Swap1(config, loan, paid);
    m.Put(2, m.pools[2].(bank := m.pools[2].bank.(totalAssetShares := 1100 * ONE - amount * ONE)), 1, 0,
          FreshBalance(2, 0).(assetShares := 1100 * ONE - amount * ONE))
  }

  function Swap3(config: BankConfig, loan: nat, amount: nat, paid: int): Market
    requires loan <= 1900
  {
    var m := Swap2(config, loan, amount, paid);
    m.Put(2, m.pools[2].(bank := m.pools[2].bank.(totalAssetShares := 1100 * ONE - amount * ONE + amount * ONE)), 0, 1,
          FreshBalance(2, 0).(assetShares := amount * ONE))
  }

  function Swap4(config: BankConfig, loan: nat, amount: nat, paid: int, received: int): Market
    requires loan <= 1900
  {
    var m := Swap3(config, loan, amount, paid);
    m.Put(1, m.pools[1].(bank := m.pools[1].bank.(totalLiabilityShares := loan * ONE - received)), 1, 1,
          FreshBalance(1, 0).(liabilityShares := loan * ONE - received))
  }

  /** The first two slots of a depositor are one balance and one free. */
  lemma DepositorSlots(acct: Account, pk: nat, amount: nat, b: BalanceState, other: nat)
    requires acct == Depositor(pk, amount, 0) && b.active && b.bankPk == pk && other != pk
    ensures FindBalance(acct.balances, pk) == Some(0)
    ensures acct.balances[0] == FreshBalance(pk, 0).(assetShares := amount * ONE)
    ensures FindBalance(acct.balances[0 := b], other) == None && FirstEmptyFrom(acct.balances[0 := b], 0) == Some(1)
    ensures |acct.balances| == MAX_LENDING_ACCOUNT_BALANCES
  {
    hide EmptyBalances;
    EmptyBalancesAre(MAX_LENDING_ACCOUNT_BALANCES - 1);
    var bs := acct.balances;
    forall i | 1 <= i < |bs|
      ensures !bs[i].active
    {
      assert bs[i] == EmptyBalances(MAX_LENDING_ACCOUNT_BALANCES - 1)[i - 1];
    }
    assert bs[0 := b][1] == bs[1];
  }

  /** Amounts that can be swapped. */
  predicate Swappable(loan: nat, amount: nat, paid: int, received: int) {
    0 < amount <= 1100 && loan <= 1900 && 0 <= received <= paid <= amount * ONE && received <= loan * ONE
  }

  lemma SwapSteps(config: BankConfig, loan: nat, amount: nat, paid: int, received: int)
    requires IsOpen(config) && Swappable(loan, amount, paid, received)
    ensures PayOut(Loan(config, loan), 0, 1, paid, BypassBorrowLimit, true, 0) == Ok(Swap1(config, loan, paid))
    ensures PayOut(Swap1(config, loan, paid), 1, 2, amount * ONE, WithdrawOnly, false, 0)
            == Ok(Swap2(config, loan, amount, paid))
    ensures PayIn(Swap2(config, loan, amount, paid), 0, 2, amount * ONE, BypassDepositLimit, true, 0)
            == Ok(Swap3(config, loan, amount, paid))
    ensures PayIn(Swap3(config, loan, amount, paid), 1, 1, received, AnyIncrease, true, 0)
            == Ok(Swap4(config, loan, amount, paid, received))
  {
    hide EmptyBalances, FindBalance, FirstEmptyFrom, Position.Increase, Position.Decrease;
    var m, m1 := Loan(config, loan), Swap1(config, loan, paid);
    var m2, m3 := Swap2(config, loan, amount, paid), Swap3(config, loan, amount, paid);
    var rest := FreshBalance(1, 0).(assetShares := 3000 * ONE - paid);
    DepositorSlots(m.accounts[0], 1, 3000, rest, 2);
    UnitWithdraw(Position(m.pools[1].bank, m.accounts[0].balances[0]), paid, BypassBorrowLimit, 0);
    HolderSlots(Owned(1100), Owed(loan));
    UnitWithdraw(Position(m1.pools[2].bank, Owned(1100)), amount * ONE, WithdrawOnly, 0);
    UnitDeposit(Position(m2.pools[2].bank, FreshBalance(2, 0)), amount * ONE, 0);
    var left := FreshBalance(2, 0).(assetShares := 1100 * ONE - amount * ONE);
    HolderSlots(left, Owed(loan));
    assert m3.accounts[1].balances == Holder(left, Owed(loan)).balances;
    UnitRepay(Position(m3.pools[1].bank, Owed(loan)), received, AnyIncrease, 0);
  }

  /** Both accounts after the swap. */
  lemma SwapSucceeds(config: BankConfig, loan: nat, amount: nat, paid: int, received: int)
    requires IsOpen(config) && Swappable(loan, amount, paid, received)
    ensures var r := SwapPositions(Loan(config, loan), 0, 1, 2, 1, amount, paid, received, 0);
            && r.Ok? && 1 in r.value.pools && 2 in r.value.pools
            && r.value.accounts == [Holder(FreshBalance(1, 0).(assetShares := 3000 * ONE - paid), Owned(amount)),
                                    Holder(FreshBalance(2, 0).(assetShares := 1100 * ONE - amount * ONE),
                                           FreshBalance(1, 0).(liabilityShares := loan * ONE - received))]
            && SameTerms(r.value.pools[1].bank, Bank(config)) && SameTerms(r.value.pools[2].bank, Bank(config))
  {
    hide EmptyBalances, PayIn, PayOut;
    SwapSteps(config, loan, amount, paid, received);
    var m := Swap4(config, loan, amount, paid, received);
    var fee := paid - received;
    DivisionBounds(fee, ONE);
    assert 0 <= fee / ONE <= 1100;
    assert DrainVault(m, 1, fee / ONE).Ok?;
    NextEmpty();
    var rest := EmptyBalances(MAX_LENDING_ACCOUNT_BALANCES - 2);
    var first := FreshBalance(1, 0).(assetShares := 3000 * ONE - paid);
    assert m.accounts[0].balances == [first, Owned(amount)] + rest;
    assert m.accounts[1].balances == [FreshBalance(2, 0).(assetShares := 1100 * ONE - amount * ONE),
                                      FreshBalance(1, 0).(liabilityShares := loan * ONE - received)] + rest;
  }

  /** What is left of the account after the swap. */
  lemma SwappedHealth(m: Market, config: BankConfig, left: BalanceState, owed: BalanceState)
    requires Weighs(config) && 1 in m.pools && 2 in m.pools && 1 < |m.accounts| && m.accounts[1] == Holder(left, owed)
    requires SameTerms(m.pools[1].bank, Bank(config)) && SameTerms(m.pools[2].bank, Bank(config))
    requires left.active && left.bankPk == 2 && left.Sound() && left.assetShares <= 1100 * ONE
    requires left.liabilityShares == 0
    requires left.assetShares == 0 || ONE <= left.assetShares
    requires owed.active && owed.bankPk == 1 && owed.Sound() && ONE <= owed.liabilityShares <= 1900 * ONE
    requires owed.assetShares == 0
    ensures var es := Exposures(m, 1, Quotes(10, 9));
            && MaintenanceHealth(es) == Ok(Product(left.assetShares, config.assetWeightMaint) * 9
                                           - Product(owed.liabilityShares, config.liabilityWeightMaint) * 10)
            && FindExposure(es, 1).Some? && FindExposure(es, 1).value.balance == owed
  {
    hide EmptyBalances, Exposures, Product, HealthComponents, Exposure.WeightedLiabilities, Exposure.WeightedAssets;
    var feeds := Quotes(10, 9);
    HolderExposures(m, 1, left, owed, feeds);
    var es := Exposures(m, 1, feeds);
    OwedWorth(es[1], 10, Maintenance);
    var v := Product(owed.liabilityShares, config.liabilityWeightMaint) * 10;
    if left.assetShares == 0 {
      assert es[0].WeightedValues(Maintenance) == Ok((0, 0));
      TwoExposures(es, Maintenance, 0, v);
      assert Product(0, config.assetWeightMaint) == 0 by { Whole(0, config.assetWeightMaint); }
    } else {
      OwnedWorth(es[0], 9, Maintenance);
      TwoExposures(es, Maintenance, Product(left.assetShares, config.assetWeightMaint) * 9, v);
    }
    assert es[1..] == [es[1]];
    assert FindExposure(es, 1) == FindExposure([es[1]], 1) == Some(es[1]);
  }

  lemma TightIsTooClose(liquidator: nat, amount: nat)
    requires 0 < amount && liquidator != 1
    ensures AccrueBoth(TightMarket(), 2, 1, 0) == Ok(TightMarket())
    ensures OnlyWorsens(TightMarket(), liquidator, 1, 2, 1, amount, Quotes(10, 9), 0)
    ensures Liquidate(TightMarket(), liquidator, 1, 2, 1, amount, Quotes(10, 9), 0).Err?
  {
    hide Inv, Reachable, Liquidate, OnlyWorsens, EmptyBalances, FindBalance, FeedPrice, AccrueAt;
    var m := TightMarket();
    TightIsReachable();
    ReachableInv(m);
    NoTimePassed(m, 2, 0);
    NoTimePassed(m, 1, 0);
    SureFeed(10, 9);
    HolderSlots(Owned(1100), Owed(1000));
    TooCloseIsRefused(m, liquidator, 1, 2, 1, amount, Quotes(10, 9), 0);
  }

  /** In this reachable market the account is short, and whatever amount of its collateral
      the lender asks for, the swap succeeds, leaves the account worse off, and is
      refused for that. */
  lemma LiquidatingHurts(amount: nat)
    requires 0 < amount <= 1100
    ensures Reachable(TightMarket()) && SHORT < 0
    ensures MaintenanceHealth(Exposures(TightMarket(), 1, Quotes(10, 9))) == Ok(SHORT)
    ensures LiquidationAmounts(TightMarket(), 2, 1, amount, Quotes(10, 9)).Ok?
    ensures var (paid, received) := LiquidationAmounts(TightMarket(), 2, 1, amount, Quotes(10, 9)).value;
            var swap := SwapPositions(TightMarket(), 0, 1, 2, 1, amount, paid, received, 0);
            && swap.Ok?
            && var after := MaintenanceHealth(Exposures(swap.value, 1, Quotes(10, 9)));
               after.Ok? && after.value < SHORT
    ensures Liquidate(TightMarket(), 0, 1, 2, 1, amount, Quotes(10, 9), 0) == Err(IllegalLiquidation)
  {
    hide Reachable, EmptyBalances, Exposures, LiquidationAmounts, SwapPositions, AccrueBoth, MaintenanceHealth,
         FindExposure, CheckPreLiquidation, FindBalance;
    var m, feeds := TightMarket(), Quotes(10, 9);
    TightIsReachable();
    MayBeLiquidated();
    var paid, received := AmountsInTenths(Tight(), 1000, amount);
    SwapSucceeds(Tight(), 1000, amount, paid, received);
    var m' := SwapPositions(m, 0, 1, 2, 1, amount, paid, received, 0).value;
    var left := FreshBalance(2, 0).(assetShares := 1100 * ONE - amount * ONE);
    var owed := FreshBalance(1, 0).(liabilityShares := 1000 * ONE - received);
    assert m'.accounts[1] == Holder(left, owed);
    SwappedHealth(m', Tight(), left, owed);
    TightIsTooClose(0, amount);
    HolderSlots(Owned(1100), Owed(1000));
    UnitValue(received);
  }

  /** Nobody can liquidate the account, by any amount and against any bank. */
  lemma OutOfReach(liquidator: nat, assetPk: nat, debtPk: nat, amount: nat)
    ensures Reachable(TightMarket())
    ensures CheckPreLiquidation(false, Exposures(TightMarket(), 1, Quotes(10, 9)), 1) == Ok(SHORT)
    ensures Liquidate(TightMarket(), liquidator, 1, assetPk, debtPk, amount, Quotes(10, 9), 0).Err?
  {
    hide Reachable, EmptyBalances, Exposures, LiquidationAmounts, SwapPositions, MaintenanceHealth, IfHealthy,
         CheckPreLiquidation, CheckPostLiquidation, BankState.AccrueInterest;
    TightIsReachable();
    MayBeLiquidated();
    if amount != 0 && assetPk != debtPk && liquidator != 1 {
      if assetPk == 2 && debtPk == 1 {
        TightIsTooClose(liquidator, amount);
      } else if assetPk == 1 && debtPk == 2 {
        NoTimePassed(TightMarket(), 1, 0);
        NoTimePassed(TightMarket(), 2, 0);
        NoDebtThere();
      }
    } else {
      BadRequestIsRefused(TightMarket(), liquidator, 1, assetPk, debtPk, amount, Quotes(10, 9), 0);
    }
  }

  lemma NoDebtThere()
    ensures CheckPreLiquidation(false, Exposures(TightMarket(), 1, Quotes(10, 9)), 2).Err?
  {
    hide EmptyBalances, Exposures, MaintenanceHealth;
    HolderExposures(TightMarket(), 1, Owned(1100), Owed(1000), Quotes(10, 9));
  }

  // --------------------------------------------- a liquidation that is accepted

  /** Collateral counts for three quarters, a debt for five. */
  function Fair(): BankConfig {
    var (w, v) := (ONE / 4 * 3, ONE / 4 * 5);
    BankConfig(w, w, v, v, U64_MAX, U64_MAX, Terms().rates, Operational, Collateral, 0)
  }

  lemma FairIsReachable()
    ensures Reachable(Loan(Fair(), 600))
  {
    hide Reachable, IfHealthy, EmptyBalances;
    BorrowIsHealthy(Fair(), 3000, 1100, 600, 10, 10);
    AfterBorrowIsReachable(Fair(), 3000, 1100, 600, Quotes(10, 10));
  }

  lemma FairMayBeLiquidated()
    ensures CheckPreLiquidation(false, Exposures(Loan(Fair(), 600), 1, Quotes(10, 9)), 1) == Ok(-75 * ONE)
  {
    hide HealthComponents, Exposures, EmptyBalances, MaintenanceHealth;
    BorrowerHealth(Fair(), 3000, 1100, 600, 10, 9, Maintenance);
    var es := Exposures(Loan(Fair(), 600), 1, Quotes(10, 9));
    assert es[1..] == [es[1]];
    assert FindExposure(es, 1) == FindExposure([es[1]], 1) == Some(es[1]);
  }

  /** An account of deposits alone passes the initial check. */
  lemma LenderIsHealthy(m: Market, config: BankConfig, first: int, amount: nat)
    requires Weighs(config) && 1 in m.pools && 2 in m.pools && 0 < |m.accounts|
    requires m.accounts[0] == Holder(FreshBalance(1, 0).(assetShares := first), Owned(amount))
    requires SameTerms(m.pools[1].bank, Bank(config)) && SameTerms(m.pools[2].bank, Bank(config))
    requires ONE <= first <= 3000 * ONE && 0 < amount <= 1100
    ensures IfHealthy(m, 0, Quotes(10, 9)).Ok?
  {
    hide EmptyBalances, Exposures, Product, Exposure.WeightedValues;
    var lent, feeds := FreshBalance(1, 0).(assetShares := first), Quotes(10, 9);
    LenderExposures(m, lent, Owned(amount), feeds);
    var es := Exposures(m, 0, feeds);
    OwnedWorth(es[0], 10, Initial);
    OwnedWorth(es[1], 9, Initial);
    assert es[..1] == [es[0]] && [es[0]][..0] == [];
    assert HealthComponents([es[0]], Initial) == Ok(es[0].WeightedValues(Initial).value);
  }

  lemma LenderExposures(m: Market, first: BalanceState, second: BalanceState, feeds: map<nat, Feed>)
    requires 0 < |m.accounts| && m.accounts[0] == Holder(first, second)
    requires first.active && first.bankPk == 1 && second.active && second.bankPk == 2
    requires 1 in m.pools && 2 in m.pools && 1 in feeds && 2 in feeds
    ensures Exposures(m, 0, feeds) == [Exposure(first, m.pools[1].bank, Some(feeds[1])),
                                       Exposure(second, m.pools[2].bank, Some(feeds[2]))]
  {
    hide EmptyBalances;
    var rest := EmptyBalances(MAX_LENDING_ACCOUNT_BALANCES - 2);
    NoExposures(m, MAX_LENDING_ACCOUNT_BALANCES - 2, feeds);
    var bs := m.accounts[0].balances;
    assert bs[1..] == [second] + rest && bs[1..][1..] == rest;
    assert ExposuresOf(m, bs[1..], feeds) == [Exposure(second, m.pools[2].bank, Some(feeds[2]))] + [];
  }

  /** In this reachable market an account is short by 75, and every liquidation that does not
      make it healthy, of up to 19 tokens of its collateral, is accepted. */
  lemma LiquidatingHelps(amount: nat)
    requires 0 < amount <= 19
    ensures Reachable(Loan(Fair(), 600))
    ensures MaintenanceHealth(Exposures(Loan(Fair(), 600), 1, Quotes(10, 9))) == Ok(-75 * ONE)
    ensures var r := Liquidate(Loan(Fair(), 600), 0, 1, 2, 1, amount, Quotes(10, 9), 0);
            && r.Ok?
            && var after := MaintenanceHealth(Exposures(r.value, 1, Quotes(10, 9)));
               after.Ok? && -75 * ONE < after.value <= 0
  {
    hide Reachable, EmptyBalances, Exposures, LiquidationAmounts, SwapPositions, MaintenanceHealth, IfHealthy,
         FindExposure, AccrueAt;
    var m, feeds := Loan(Fair(), 600), Quotes(10, 9);
    FairIsReachable();
    FairMayBeLiquidated();
    NoTimePassed(m, 2, 0);
    NoTimePassed(m, 1, 0);
    var paid, received := AmountsInTenths(Fair(), 600, amount);
    SwapSucceeds(Fair(), 600, amount, paid, received);
    var m' := SwapPositions(m, 0, 1, 2, 1, amount, paid, received, 0).value;
    var left := FreshBalance(2, 0).(assetShares := 1100 * ONE - amount * ONE);
    var owed := FreshBalance(1, 0).(liabilityShares := 600 * ONE - received);
    SwappedHealth(m', Fair(), left, owed);
    HelpsBy(amount, received);
    LenderIsHealthy(m', Fair(), 3000 * ONE - paid, amount);
    IfHealthyIs(m', 0, feeds);
  }

  /** Three quarters of nine tenths of the collateral are less than five quarters of the
      relief. */
  lemma HelpsBy(amount: nat, received: int)
    requires 0 < amount <= 19 && received == amount * RELIEF * 9 / 10
    ensures var after := Product(1100 * ONE - amount * ONE, ONE / 4 * 3) * 9
                         - Product(600 * ONE - received, ONE / 4 * 5) * 10;
            -75 * ONE < after <= 0
    ensures ONE <= 600 * ONE - received
  {
    hide Product;
    Whole(1100 - amount, ONE / 4 * 3);
    FiveQuarters(600 * ONE - received);
  }

  lemma FiveQuarters(x: int)
    ensures 4 * Product(x, ONE / 4 * 5) <= 5 * x < 4 * Product(x, ONE / 4 * 5) + 4
  {
    ProductBounds(x, ONE / 4 * 5);
  }
}
