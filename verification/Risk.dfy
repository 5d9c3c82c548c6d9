/** The risk engine: weighted values of an account's balances under three
    requirements, and the checks built on them. */
module Risk {
  import opened Results
  import opened FixedPoint
  import opened Interest
  import opened Valuation
  import opened Banks
  import opened Positions
  import opened Prices

  datatype Requirement = Initial | Maintenance | Equity

  function PriceTypeOf(req: Requirement): PriceType {
    if req == Maintenance then RealTime else TimeWeighted
  }

  function Weight(config: BankConfig, req: Requirement, side: Side): int {
    match (req, side)
    case (Initial, Assets) => config.assetWeightInit
    case (Initial, Liabilities) => config.liabilityWeightInit
    case (Maintenance, Assets) => config.assetWeightMaint
    case (Maintenance, Liabilities) => config.liabilityWeightMaint
    case (Equity, _) => ONE
  }

  /** An active balance with its bank and its price feed, if one could be loaded. */
  datatype Exposure = Exposure(balance: BalanceState, bank: BankState, feed: Option<Feed>) {

    predicate Sound() {
      balance.Sound() && bank.Healthy()
    }

    function WeightedAssets(req: Requirement): Result<int> {
      if bank.config.riskTier == Isolated then Ok(0)
      else if feed == None then (if req == Initial then Ok(0) else Err(StaleOracle))
      else
        var price :- PriceOfType(feed.value, PriceTypeOf(req), Low);
        var discount :- if req == Initial then bank.AssetWeightInitDiscount(price) else Ok(None);
        var weight :- if discount.Some? then CheckedMul(Weight(bank.config, req, Assets), discount.value)
                      else Ok(Weight(bank.config, req, Assets));
        var amount :- bank.AssetAmount(balance.assetShares);
        CalcValue(amount, price, bank.mintDecimals, Some(weight))
    }

    function WeightedLiabilities(req: Requirement): Result<int> {
      if feed == None then Err(StaleOracle) else
      var price :- PriceOfType(feed.value, PriceTypeOf(req), High);
      var amount :- bank.LiabilityAmount(balance.liabilityShares);
      CalcValue(amount, price, bank.mintDecimals, Some(Weight(bank.config, req, Liabilities)))
    }

    function WeightedValues(req: Requirement): Result<(int, int)> {
      var side :- balance.GetSide();
      match side
      case Some(Assets) => var a :- WeightedAssets(req); Ok((a, 0))
      case Some(Liabilities) => var l :- WeightedLiabilities(req); Ok((0, l))
      case None => Ok((0, 0))
    }
  }

  /** Running totals with one more exposure added. */
  function AddExposure(totals: (int, int), e: Exposure, req: Requirement): Result<(int, int)> {
    var (a, l) :- e.WeightedValues(req);
    var assets :- Checked(totals.0 + a);
    var liabilities :- Checked(totals.1 + l);
    Ok((assets, liabilities))
  }

  /** Total weighted assets and liabilities. */
  function HealthComponents(es: seq<Exposure>, req: Requirement): Result<(int, int)> {
    if es == [] then Ok((0, 0)) else
    var totals :- HealthComponents(es[..|es| - 1], req);
    AddExposure(totals, es[|es| - 1], req)
  }

  /** A component that fails makes the total fail. */
  lemma {:induction false} FailurePropagates(es: seq<Exposure>, req: Requirement, n: nat)
    requires n <= |es| && HealthComponents(es[..n], req).Err?
    ensures HealthComponents(es, req) == HealthComponents(es[..n], req)
    decreases |es|
  {
    if n == |es| {
      assert es[..n] == es;
    } else {
      assert es[..|es| - 1][..n] == es[..n];
      FailurePropagates(es[..|es| - 1], req, n);
    }
  }

  method GetAccountHealthComponents(es: seq<Exposure>, req: Requirement) returns (r: Result<(int, int)>)
    ensures r == HealthComponents(es, req)
  {
    hide AddExposure;
    var totals := (0, 0);
    for i := 0 to |es|
      invariant HealthComponents(es[..i], req) == Ok(totals)
    {
      assert es[..i + 1][..i] == es[..i];
      var next := AddExposure(totals, es[i], req);
      if next.Err? {
        FailurePropagates(es, req, i + 1);
        return next;
      }
      totals := next.value;
    }
    assert es[..|es|] == es;
    return Ok(totals);
  }

  function CountLiabilities(es: seq<Exposure>): nat {
    if es == [] then 0
    else CountLiabilities(es[1..]) + if es[0].balance.IsEmpty(Liabilities) then 0 else 1
  }

  function CheckRiskTiers(es: seq<Exposure>): Result<()> {
    Check((exists e :: e in es && !e.balance.IsEmpty(Liabilities) && e.bank.config.riskTier == Isolated)
          ==> CountLiabilities(es) == 1,
          IsolatedAccountIllegalState)
  }

  function CheckInitHealth(inFlashloan: bool, es: seq<Exposure>): Result<()> {
    if inFlashloan then Ok(()) else
    var (assets, liabilities) :- HealthComponents(es, Initial);
    var _ :- Check(liabilities <= assets, RiskEngineInitRejected);
    CheckRiskTiers(es)
  }

  function CheckBankrupt(inFlashloan: bool, es: seq<Exposure>): Result<()> {
    var (assets, liabilities) :- HealthComponents(es, Equity);
    var _ :- Check(!inFlashloan, AccountInFlashloan);
    var _ :- Check(assets < liabilities, AccountNotBankrupt);
    Check(assets < BANKRUPT_THRESHOLD && ZERO_AMOUNT_THRESHOLD < liabilities, AccountNotBankrupt)
  }

  function MaintenanceHealth(es: seq<Exposure>): Result<int> {
    var (assets, liabilities) :- HealthComponents(es, Maintenance);
    Checked(assets - liabilities)
  }

  /** The exposure to bank `pk`. */
  function FindExposure(es: seq<Exposure>, pk: nat): Option<Exposure> {
    if es == [] then None else if es[0].balance.bankPk == pk then Some(es[0]) else FindExposure(es[1..], pk)
  }

  function CheckPreLiquidation(inFlashloan: bool, es: seq<Exposure>, pk: nat): Result<int> {
    var _ :- Check(!inFlashloan, AccountInFlashloan);
    var e := FindExposure(es, pk);
    var _ :- Check(e.Some?, LendingAccountBalanceNotFound);
    var _ :- Check(!e.value.balance.IsEmpty(Liabilities), IllegalLiquidation);
    var _ :- Check(e.value.balance.IsEmpty(Assets), IllegalLiquidation);
    var health :- MaintenanceHealth(es);
    var _ :- Check(health <= 0, IllegalLiquidation);
    Ok(health)
  }

  function CheckPostLiquidation(inFlashloan: bool, es: seq<Exposure>, pk: nat, before: int): Result<int> {
    var _ :- Check(!inFlashloan, AccountInFlashloan);
    var e := FindExposure(es, pk);
    var _ :- Check(e.Some?, Panic);
    var _ :- Check(!e.value.balance.IsEmpty(Liabilities), IllegalLiquidation);
    var _ :- Check(e.value.balance.IsEmpty(Assets), IllegalLiquidation);
    var health :- MaintenanceHealth(es);
    var _ :- Check(health <= 0, IllegalLiquidation);
    var _ :- Check(before < health, IllegalLiquidation);
    Ok(health)
  }

  // --------------------------------------------------- ordering the requirements

  lemma DiscountAtMostOne(bank: BankState, price: int)
    requires bank.AssetWeightInitDiscount(price).Ok? && bank.AssetWeightInitDiscount(price).value.Some?
    ensures 0 <= bank.AssetWeightInitDiscount(price).value.value <= ONE
  {
    var limit := bank.config.totalAssetValueInitLimit * ONE;
    var amount := Product(bank.totalAssetShares, bank.assetShareValue);
    var value := CalcValue(amount, price, bank.mintDecimals, None).value;
    QuotientMonotone(limit, value, value);
    QuotientOfSelf(value);
    QuotientBounds(limit, value);
  }

  /** The weight of assets under the initial requirement, discounted. */
  function InitWeight(bank: BankState, price: int): int {
    var d := bank.AssetWeightInitDiscount(price);
    if d.Ok? && d.value.Some? then Product(bank.config.assetWeightInit, d.value.value)
    else bank.config.assetWeightInit
  }

  lemma InitWeightAtMost(bank: BankState, price: int)
    requires bank.config.Valid()
    ensures 0 <= InitWeight(bank, price) <= bank.config.assetWeightInit
  {
    var d := bank.AssetWeightInitDiscount(price);
    if d.Ok? && d.value.Some? {
      DiscountAtMostOne(bank, price);
      ProductBounds(bank.config.assetWeightInit, d.value.value);
      ProductMonotone(d.value.value, ONE, bank.config.assetWeightInit);
    }
  }

  /** The initial requirement sees no higher a price for what is owned and no lower a
      price for what is owed than the other. */
  predicate PricesInOrder(e: Exposure, req: Requirement) {
    e.feed.Some? ==>
      && AtMost(PriceOfType(e.feed.value, TimeWeighted, Low), PriceOfType(e.feed.value, PriceTypeOf(req), Low))
      && AtMost(PriceOfType(e.feed.value, PriceTypeOf(req), High), PriceOfType(e.feed.value, TimeWeighted, High))
  }

  predicate AtMost(a: Result<int>, b: Result<int>) {
    a.Ok? && b.Ok? ==> a.value <= b.value
  }

  lemma InitAssetsAtMost(e: Exposure, req: Requirement)
    requires e.Sound() && PricesInOrder(e, req)
    requires e.WeightedAssets(Initial).Ok? && e.WeightedAssets(req).Ok?
    ensures 0 <= e.WeightedAssets(Initial).value <= e.WeightedAssets(req).value
  {
    hide PriceOfType, CalcValue, Product, BankState.AssetWeightInitDiscount;
    if e.bank.config.riskTier == Collateral && e.feed.Some? {
      var price := PriceOfType(e.feed.value, TimeWeighted, Low).value;
      var other := PriceOfType(e.feed.value, PriceTypeOf(req), Low).value;
      var amount := Product(e.balance.assetShares, e.bank.assetShareValue);
      BiasedPriceNonNegative(e.feed.value, TimeWeighted, Low);
      ProductBounds(e.balance.assetShares, e.bank.assetShareValue);
      InitWeightAtMost(e.bank, price);
      var weight := if req == Initial then InitWeight(e.bank, price) else Weight(e.bank.config, req, Assets);
      ValueMonotone(amount, price, other, e.bank.mintDecimals, InitWeight(e.bank, price), weight);
    }
  }

  lemma InitLiabilitiesAtLeast(e: Exposure, req: Requirement)
    requires e.Sound() && PricesInOrder(e, req)
    requires e.WeightedLiabilities(Initial).Ok? && e.WeightedLiabilities(req).Ok?
    ensures 0 <= e.WeightedLiabilities(req).value <= e.WeightedLiabilities(Initial).value
  {
    hide PriceOfType, CalcValue, Product;
    var price := PriceOfType(e.feed.value, TimeWeighted, High).value;
    var other := PriceOfType(e.feed.value, PriceTypeOf(req), High).value;
    var amount := Product(e.balance.liabilityShares, e.bank.liabilityShareValue);
    BiasedPriceNonNegative(e.feed.value, PriceTypeOf(req), High);
    ProductBounds(e.balance.liabilityShares, e.bank.liabilityShareValue);
    ValueMonotone(amount, other, price, e.bank.mintDecimals, Weight(e.bank.config, req, Liabilities),
                  Weight(e.bank.config, Initial, Liabilities));
  }

  /** With prices in order, the initial requirement counts assets for no more and
      liabilities for no less than the other. */
  lemma {:induction false} InitIsStricter(es: seq<Exposure>, req: Requirement)
    requires forall e :: e in es ==> e.Sound() && PricesInOrder(e, req)
    requires HealthComponents(es, Initial).Ok? && HealthComponents(es, req).Ok?
    ensures HealthComponents(es, Initial).value.0 <= HealthComponents(es, req).value.0
    ensures HealthComponents(es, req).value.1 <= HealthComponents(es, Initial).value.1
  {
    hide Exposure.WeightedAssets, Exposure.WeightedLiabilities, Exposure.Sound, PricesInOrder;
    if es != [] {
      var e := es[|es| - 1];
      assert e in es;
      InitIsStricter(es[..|es| - 1], req);
      match e.balance.GetSide().value
      case Some(Assets) => InitAssetsAtMost(e, req);
      case Some(Liabilities) => InitLiabilitiesAtLeast(e, req);
      case None =>
    }
  }

  /** An account that passes the initial check, flashloan or not, cannot be
      declared bankrupt in the same state. */
  lemma InitHealthyIsNotBankrupt(inFlashloan: bool, es: seq<Exposure>)
    requires forall e :: e in es ==> e.Sound()
    requires CheckInitHealth(inFlashloan, es).Ok?
    ensures CheckBankrupt(inFlashloan, es).Err?
  {
    if !inFlashloan && HealthComponents(es, Equity).Ok? {
      InitIsStricter(es, Equity);
    }
  }

  /** A debt in an isolated bank is the only debt of an account that passes. */
  lemma IsolatedStandsAlone(es: seq<Exposure>, i: nat, j: nat)
    requires CheckInitHealth(false, es).Ok? && i < |es| && j < |es| && i != j
    requires !es[i].balance.IsEmpty(Liabilities) && !es[j].balance.IsEmpty(Liabilities)
    ensures es[i].bank.config.riskTier != Isolated
  {
    assert es[i] in es;
    if i < j {
      TwoLiabilities(es, i, j);
    } else {
      TwoLiabilities(es, j, i);
    }
  }

  lemma {:induction false} TwoLiabilities(es: seq<Exposure>, i: nat, j: nat)
    requires i < j < |es|
    requires !es[i].balance.IsEmpty(Liabilities) && !es[j].balance.IsEmpty(Liabilities)
    ensures 2 <= CountLiabilities(es)
  {
    if i == 0 {
      OneLiability(es[1..], j - 1);
    } else {
      TwoLiabilities(es[1..], i - 1, j - 1);
    }
  }

  lemma {:induction false} OneLiability(es: seq<Exposure>, i: nat)
    requires i < |es| && !es[i].balance.IsEmpty(Liabilities)
    ensures 1 <= CountLiabilities(es)
  {
    if i != 0 {
      OneLiability(es[1..], i - 1);
    }
  }

  lemma {:induction false} SomeLiability(es: seq<Exposure>) returns (j: nat)
    requires 1 <= CountLiabilities(es)
    ensures j < |es| && !es[j].balance.IsEmpty(Liabilities)
  {
    if !es[0].balance.IsEmpty(Liabilities) {
      j := 0;
    } else {
      var k := SomeLiability(es[1..]);
      j := k + 1;
    }
  }

  lemma {:induction false} AnotherLiability(es: seq<Exposure>, i: nat) returns (j: nat)
    requires i < |es| && 2 <= CountLiabilities(es)
    ensures j < |es| && j != i && !es[j].balance.IsEmpty(Liabilities)
  {
    if i != 0 && !es[0].balance.IsEmpty(Liabilities) {
      j := 0;
    } else {
      if i == 0 {
        j := SomeLiability(es[1..]);
      } else {
        j := AnotherLiability(es[1..], i - 1);
      }
      j := j + 1;
    }
  }

  /** Two balances are both debts, and the first of them is in an isolated bank. */
  predicate Mixes(es: seq<Exposure>, i: nat, j: nat) {
    && i < |es| && j < |es| && i != j && es[i].bank.config.riskTier == Isolated
    && !es[i].balance.IsEmpty(Liabilities) && !es[j].balance.IsEmpty(Liabilities)
  }

  /** The check of risk tiers refuses exactly the accounts with a debt in an isolated bank
      and another debt. */
  lemma RiskTiersIff(es: seq<Exposure>)
    ensures CheckRiskTiers(es).Ok? <==> forall i: nat, j: nat :: !Mixes(es, i, j)
  {
    forall i: nat, j: nat | Mixes(es, i, j)
      ensures CheckRiskTiers(es).Err?
    {
      assert es[i] in es;
      if i < j {
        TwoLiabilities(es, i, j);
      } else {
        TwoLiabilities(es, j, i);
      }
    }
    if CheckRiskTiers(es).Err? {
      var e :| e in es && !e.balance.IsEmpty(Liabilities) && e.bank.config.riskTier == Isolated;
      var i: nat :| i < |es| && es[i] == e;
      OneLiability(es, i);
      var j := AnotherLiability(es, i);
      assert Mixes(es, i, j);
    }
  }

  /** If no spot price is worse than the averaged one, an account that passes the
      initial check can be liquidated only at a maintenance health of exactly zero. */
  lemma InitHealthyIsNotLiquidatable(inFlashloan: bool, es: seq<Exposure>, pk: nat)
    requires forall e :: e in es ==> e.Sound() && PricesInOrder(e, Maintenance)
    requires CheckInitHealth(inFlashloan, es).Ok?
    ensures !inFlashloan && MaintenanceHealth(es).Ok? ==> 0 <= MaintenanceHealth(es).value
    ensures CheckPreLiquidation(inFlashloan, es, pk).Ok? ==> CheckPreLiquidation(inFlashloan, es, pk) == Ok(0)
  {
    if !inFlashloan && HealthComponents(es, Maintenance).Ok? {
      InitIsStricter(es, Maintenance);
    }
  }

  lemma SwitchboardPricesAgree(e: Exposure)
    requires e.feed.Some? ==> !e.feed.value.Pyth?
    ensures PricesInOrder(e, Maintenance)
  {
    if e.feed.Some? {
      SwitchboardHasOnePrice(e.feed.value, Low);
      SwitchboardHasOnePrice(e.feed.value, High);
    }
  }

  // ------------------------------------------------- and prices out of order

  /** A feed that quotes one, surely. */
  const PAR := Pyth(PythPrice(1, 0, 0), PythPrice(1, 0, 0))

  /** An account with `owned` ulps of one bank's tokens and `owed` of another's; the banks
      have issued what it holds, and the second has deposits to lend. */
  function TwoBalances(config: BankConfig, owned: int, owed: int, first: Feed, second: Feed): seq<Exposure> {
    var bank := NewBank(config, 0, 0);
    [Exposure(BalanceState(true, 1, owned, 0, 0, 0), bank.(totalAssetShares := owned), Some(first)),
     Exposure(BalanceState(true, 2, 0, owed, 0, 0),
              bank.(totalAssetShares := owed, totalLiabilityShares := owed), Some(second))]
  }

  /** Weights of one and no limit on what collateral counts. */
  predicate Plain(config: BankConfig) {
    && config.Valid() && config.riskTier == Collateral && config.totalAssetValueInitLimit == 0
    && config.assetWeightInit == config.assetWeightMaint == ONE
    && config.liabilityWeightInit == config.liabilityWeightMaint == ONE
  }

  lemma ParIsOne(kind: PriceType, bias: Bias)
    ensures PriceOfType(PAR, kind, bias) == Ok(ONE)
  {
  }

  /** At a weight and a share value of one, a value is the amount times the price. */
  lemma PlainValue(amount: int, price: int)
    requires 0 <= amount && 0 <= price && amount * price <= MAX * ONE && amount <= MAX
    ensures CalcValue(amount, price, 0, Some(ONE)) == Ok(Product(amount, price))
  {
    ProductBounds(amount, price);
    assert Product(amount, ONE) == amount;
    var v := Product(amount, price);
    assert Truncated(v * ONE, Pow10(0) * ONE) == v;
  }

  lemma OwnedValue(config: BankConfig, owned: int, first: Feed, second: Feed, owed: int, req: Requirement)
    requires Plain(config) && ONE <= owned <= MAX && req != Equity
    requires PriceOfType(first, PriceTypeOf(req), Low).Ok?
    requires owned * PriceOfType(first, PriceTypeOf(req), Low).value <= MAX * ONE
    ensures TwoBalances(config, owned, owed, first, second)[0].WeightedValues(req)
            == Ok((Product(owned, PriceOfType(first, PriceTypeOf(req), Low).value), 0))
  {
    hide PriceOfType, CalcValue, Product;
    BiasedPriceNonNegative(first, PriceTypeOf(req), Low);
    PlainValue(owned, PriceOfType(first, PriceTypeOf(req), Low).value);
    TimesOne(owned);
  }

  lemma TimesOne(x: int)
    ensures Product(x, ONE) == x
  {
  }

  lemma OwedValue(config: BankConfig, owned: int, first: Feed, second: Feed, owed: int, req: Requirement)
    requires Plain(config) && ONE <= owed <= MAX && req != Equity
    requires PriceOfType(second, PriceTypeOf(req), High).Ok?
    requires owed * PriceOfType(second, PriceTypeOf(req), High).value <= MAX * ONE
    ensures TwoBalances(config, owned, owed, first, second)[1].WeightedValues(req)
            == Ok((0, Product(owed, PriceOfType(second, PriceTypeOf(req), High).value)))
  {
    hide PriceOfType, CalcValue, Product;
    BiasedPriceNonNegative(second, PriceTypeOf(req), High);
    PlainValue(owed, PriceOfType(second, PriceTypeOf(req), High).value);
    TimesOne(owed);
  }

  /** The checks on an account of two balances come down to their four values. */
  lemma TwoBalancesPass(es: seq<Exposure>, owned: int, owned': int, owed: int, owed': int)
    requires |es| == 2 && es[0].balance.bankPk == 1 && es[1].balance.bankPk == 2
    requires forall e :: e in es ==> e.bank.config.riskTier == Collateral
    requires !es[1].balance.IsEmpty(Liabilities) && es[1].balance.IsEmpty(Assets)
    requires es[0].WeightedValues(Initial) == Ok((owned, 0)) && es[0].WeightedValues(Maintenance) == Ok((owned', 0))
    requires es[1].WeightedValues(Initial) == Ok((0, owed)) && es[1].WeightedValues(Maintenance) == Ok((0, owed'))
    requires 0 <= owed <= owned <= MAX && 0 <= owned' < owed' <= MAX
    ensures CheckInitHealth(false, es).Ok?
    ensures CheckPreLiquidation(false, es, 2) == Ok(owned' - owed')
  {
    hide Exposure.WeightedValues;
    assert es[..1] == [es[0]] && [es[0]][..0] == [] && es[1..] == [es[1]];
    assert HealthComponents([es[0]], Initial) == Ok((owned, 0));
    assert HealthComponents([es[0]], Maintenance) == Ok((owned', 0));
    assert HealthComponents(es, Initial) == Ok((owned, owed));
    assert HealthComponents(es, Maintenance) == Ok((owned', owed'));
    assert FindExposure(es, 2) == FindExposure([es[1]], 2) == Some(es[1]);
  }

  /** How many tokens to take so that they are worth at least one at price `p`. */
  function Enough(p: int): int {
    if ONE <= p then 1 else ONE
  }

  /** If the spot price of something owned is below the averaged one, some account passes
      the initial check and can be liquidated well below zero. */
  lemma LowerSpotLiquidates(config: BankConfig, feed: Feed)
    requires Plain(config)
    requires PriceOfType(feed, TimeWeighted, Low).Ok? && PriceOfType(feed, RealTime, Low).Ok?
    requires PriceOfType(feed, RealTime, Low).value < PriceOfType(feed, TimeWeighted, Low).value
    ensures var (p, q) := (PriceOfType(feed, TimeWeighted, Low).value, PriceOfType(feed, RealTime, Low).value);
            var n := Enough(p);
            var es := TwoBalances(config, n * ONE, n * p, feed, PAR);
            && CheckInitHealth(false, es).Ok? && CheckPreLiquidation(false, es, 2) == Ok(n * (q - p)) && n * (q - p) < 0
  {
    hide PriceOfType, Product, CheckInitHealth, CheckPreLiquidation, Exposure.WeightedValues;
    var (p, q) := (PriceOfType(feed, TimeWeighted, Low).value, PriceOfType(feed, RealTime, Low).value);
    var n := Enough(p);
    BiasedPriceNonNegative(feed, RealTime, Low);
    PriceInRange(feed, TimeWeighted, Low);
    EnoughIs(p, n);
    Tokens(n, p);
    Tokens(n, q);
    ParIsOne(TimeWeighted, High);
    ParIsOne(RealTime, High);
    TimesOne(n * p);
    OwnedValue(config, n * ONE, feed, PAR, n * p, Initial);
    OwnedValue(config, n * ONE, feed, PAR, n * p, Maintenance);
    OwedValue(config, n * ONE, feed, PAR, n * p, Initial);
    OwedValue(config, n * ONE, feed, PAR, n * p, Maintenance);
    Scale(q + 1, p, n);
    TwoBalancesPass(TwoBalances(config, n * ONE, n * p, feed, PAR), n * p, n * q, n * p, n * p);
  }

  lemma PriceInRange(feed: Feed, kind: PriceType, bias: Bias)
    requires PriceOfType(feed, kind, bias).Ok?
    ensures 0 <= PriceOfType(feed, kind, bias).value <= MAX
  {
    BiasedPriceNonNegative(feed, kind, bias);
  }

  lemma EnoughIs(p: int, n: int)
    requires 0 < p <= MAX && n == Enough(p)
    ensures 1 <= n <= ONE && ONE <= n * p <= MAX
  {
    if p < ONE {
      Scale(p, ONE, ONE);
    }
  }

  lemma Tokens(n: int, p: int)
    ensures Product(n * ONE, p) == n * p && n * ONE * p == n * p * ONE
  {
    assert n * ONE * p == n * p * ONE;
  }

  /** How many tokens to owe at an averaged price `p` and a spot price `q`, and what to
      own against them. */
  function Against(p: int, q: int): (int, int) {
    if ONE <= p then (1, p) else if ONE < q then (1, ONE) else if p == 0 then (2 * ONE, ONE) else (ONE, ONE * p)
  }

  lemma AgainstIs(p: int, q: int, n: int, owned: int)
    requires 0 <= p < q <= MAX && (n, owned) == Against(p, q)
    ensures 1 <= n <= 2 * ONE && ONE <= owned <= MAX && n * p <= owned < n * q <= MAX
  {
    if q <= ONE {
      Scale(p + 1, q, n);
      Scale(q, ONE, n);
    }
  }

  /** Likewise if the spot price of something owed is above the averaged one. */
  lemma HigherSpotLiquidates(config: BankConfig, feed: Feed)
    requires Plain(config)
    requires PriceOfType(feed, TimeWeighted, High).Ok? && PriceOfType(feed, RealTime, High).Ok?
    requires PriceOfType(feed, TimeWeighted, High).value < PriceOfType(feed, RealTime, High).value
    ensures var (p, q) := (PriceOfType(feed, TimeWeighted, High).value, PriceOfType(feed, RealTime, High).value);
            var (n, owned) := Against(p, q);
            var es := TwoBalances(config, owned, n * ONE, PAR, feed);
            CheckInitHealth(false, es).Ok? && CheckPreLiquidation(false, es, 2) == Ok(owned - n * q) && owned - n * q < 0
  {
    hide PriceOfType, Product, CheckInitHealth, CheckPreLiquidation, Exposure.WeightedValues, Against;
    var (p, q) := (PriceOfType(feed, TimeWeighted, High).value, PriceOfType(feed, RealTime, High).value);
    PriceInRange(feed, TimeWeighted, High);
    PriceInRange(feed, RealTime, High);
    var (n, owned) := Against(p, q);
    AgainstIs(p, q, n, owned);
    Tokens(n, p);
    Tokens(n, q);
    ParIsOne(TimeWeighted, Low);
    ParIsOne(RealTime, Low);
    TimesOne(owned);
    OwnedValue(config, owned, PAR, feed, n * ONE, Initial);
    OwnedValue(config, owned, PAR, feed, n * ONE, Maintenance);
    OwedValue(config, owned, PAR, feed, n * ONE, Initial);
    OwedValue(config, owned, PAR, feed, n * ONE, Maintenance);
    TwoBalancesPass(TwoBalances(config, owned, n * ONE, PAR, feed), owned, owned, n * p, n * q);
  }
}
