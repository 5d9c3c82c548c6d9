/** Health without rounding: what the configured weights and the biased prices make of an
    account's balances exactly, and what each check of the risk engine means for it. */
module Coverage {
  import opened Results
  import opened FixedPoint
  import opened Interest
  import opened Valuation
  import opened Banks
  import opened Positions
  import opened Prices
  import opened Risk

  /** One ulp of value, in the units of exact worth. */
  function Ulp(): int {
    Pow10(23) * (ONE * ONE * ONE)
  }

  /** Shares of a bank, what one is worth in tokens, and the weight and price at which the
      tokens count. */
  datatype Entry = Entry(shares: int, shareValue: int, weight: int, price: int, decimals: nat) {

    /** Powers of ten that bring all tokens to the same number of decimals. */
    function Scale10(): int {
      if decimals <= 23 then Pow10(23 - decimals) else 0
    }

    function Worth(): int {
      shares * shareValue * weight * price * Scale10()
    }

    /** What rounding an amount, its weighted value and its price can take off. */
    function Rounding(): int {
      Ulp() + price * (ONE + weight) * ONE * Scale10()
    }
  }

  function PriceOr(feed: Feed, kind: PriceType, bias: Bias): int {
    var p := PriceOfType(feed, kind, bias);
    if p.Ok? then p.value else 0
  }

  /** What an exposure counts for.  Collateral counts at the low price, a debt at the high
      one; averaged prices decide on what may be borrowed and on what is lost,
      spot prices on liquidation. */
  function EntryOf(e: Exposure, req: Requirement, side: Side): Option<Entry> {
    var (b, c) := (e.bank, e.bank.config);
    if e.balance.IsEmpty(side) || e.feed == None || (side == Assets && c.riskTier == Isolated) then None else
    match side
    case Assets =>
      var shares := e.balance.assetShares;
      var averaged, spot := PriceOr(e.feed.value, TimeWeighted, Low), PriceOr(e.feed.value, RealTime, Low);
      (match req
       case Initial => Some(Entry(shares, b.assetShareValue, InitWeight(b, averaged), averaged, b.mintDecimals))
       case Maintenance => Some(Entry(shares, b.assetShareValue, c.assetWeightMaint, spot, b.mintDecimals))
       case Equity => Some(Entry(shares, b.assetShareValue, ONE, averaged, b.mintDecimals)))
    case Liabilities =>
      var shares := e.balance.liabilityShares;
      var averaged, spot := PriceOr(e.feed.value, TimeWeighted, High), PriceOr(e.feed.value, RealTime, High);
      (match req
       case Initial => Some(Entry(shares, b.liabilityShareValue, c.liabilityWeightInit, averaged, b.mintDecimals))
       case Maintenance => Some(Entry(shares, b.liabilityShareValue, c.liabilityWeightMaint, spot, b.mintDecimals))
       case Equity => Some(Entry(shares, b.liabilityShareValue, ONE, averaged, b.mintDecimals)))
  }

  /** `value` is what `entry` is worth, rounded down. */
  predicate Rounds(value: int, entry: Option<Entry>) {
    match entry
    case None => value == 0
    case Some(t) => value * Ulp() <= t.Worth() <= value * Ulp() + t.Rounding()
  }

  /** What must have a price has one: every debt, and collateral that counts, except that
      before borrowing collateral may do without and then counts for nothing. */
  predicate Priced(e: Exposure, req: Requirement) {
    var kind := if req == Maintenance then RealTime else TimeWeighted;
    && (!e.balance.IsEmpty(Liabilities) ==> e.feed.Some? && PriceOfType(e.feed.value, kind, High).Ok?)
    && (!e.balance.IsEmpty(Assets) && e.bank.config.riskTier == Collateral && (req != Initial || e.feed.Some?) ==>
          e.feed.Some? && PriceOfType(e.feed.value, kind, Low).Ok?)
  }

  // ------------------------------------------------------------- one balance

  lemma WorthChain(whole: int, amount: int, weight: int, price: int, p: int, t: int, v: int, d: int)
    requires 0 <= weight && 0 <= price && 0 < t && p * t == d && amount * ONE <= whole < amount * ONE + ONE
    requires v * p * ONE * ONE <= amount * weight * price < (v + 1) * p * ONE * ONE + price * ONE + 1
    ensures v * (d * (ONE * ONE * ONE)) <= whole * weight * price * t
    ensures whole * weight * price * t <= (v + 1) * (d * (ONE * ONE * ONE)) + price * (ONE + weight) * ONE * t
  {
    var k := weight * price;
    Scale(0, price, weight);
    Scale(amount * ONE, whole, k);
    Scale(whole, amount * ONE + ONE, k);
    assert whole * k == whole * weight * price;
    assert amount * ONE * k == amount * weight * price * ONE;
    assert (amount * ONE + ONE) * k == amount * weight * price * ONE + ONE * k;
    ScaledUp(v, p, t, d, amount * weight * price, price, k, whole * k);
    assert price * (ONE + weight) * ONE * t == (price * ONE + k) * ONE * t;
  }

  lemma ScaledUp(v: int, p: int, t: int, d: int, x: int, price: int, k: int, y: int)
    requires 0 < t && p * t == d && x * ONE <= y <= x * ONE + ONE * k
    requires v * p * ONE * ONE <= x <= (v + 1) * p * ONE * ONE + price * ONE
    ensures v * (d * (ONE * ONE * ONE)) <= y * t <= (v + 1) * (d * (ONE * ONE * ONE)) + (price * ONE + k) * ONE * t
  {
    Scale(v * p * ONE * ONE * ONE, y, t);
    Scale(y, ((v + 1) * p * ONE * ONE + price * ONE) * ONE + ONE * k, t);
    assert v * p * ONE * ONE * ONE * t == v * (p * t) * (ONE * ONE * ONE);
    assert (((v + 1) * p * ONE * ONE + price * ONE) * ONE + ONE * k) * t
        == (v + 1) * (p * t) * (ONE * ONE * ONE) + (price * ONE + k) * ONE * t;
  }

  lemma ValueRounds(t: Entry, amount: int)
    requires 0 <= amount && 0 <= t.weight && 0 <= t.price && IsProduct(t.shares, t.shareValue, amount)
    requires t.decimals <= 23 && CalcValue(amount, t.price, t.decimals, Some(t.weight)).Ok?
    ensures Rounds(CalcValue(amount, t.price, t.decimals, Some(t.weight)).value, Some(t))
  {
    hide CalcValue, Pow10;
    var v := CalcValue(amount, t.price, t.decimals, Some(t.weight)).value;
    ValueBounds(amount, t.price, t.decimals, t.weight);
    PowAdd(t.decimals, 23 - t.decimals);
    WorthChain(t.shares * t.shareValue, amount, t.weight, t.price, Pow10(t.decimals), Pow10(23 - t.decimals), v,
               Pow10(23));
  }

  /** A balance of at least one share is worth something. */
  lemma AmountPositive(shares: int, value: int)
    requires ONE <= shares && 0 < value
    ensures 0 < Product(shares, value)
  {
    Scale(ONE, shares, value);
    ProductBounds(shares, value);
    if Product(shares, value) <= 0 {
      assert false;
    }
  }

  lemma AssetsRound(e: Exposure, req: Requirement)
    requires e.Sound() && !e.balance.IsEmpty(Assets) && e.WeightedAssets(req).Ok?
    ensures Rounds(e.WeightedAssets(req).value, EntryOf(e, req, Assets))
  {
    hide PriceOfType, CalcValue, Product, BankState.AssetWeightInitDiscount, Rounds;
    if e.bank.config.riskTier == Collateral && e.feed.Some? {
      var (b, amount) := (e.bank, Product(e.balance.assetShares, e.bank.assetShareValue));
      var t := EntryOf(e, req, Assets).value;
      BiasedPriceNonNegative(e.feed.value, PriceTypeOf(req), Low);
      AmountPositive(e.balance.assetShares, b.assetShareValue);
      ProductBounds(e.balance.assetShares, b.assetShareValue);
      InitWeightAtMost(b, t.price);
      ValueNeedsDecimals(amount, t.price, b.mintDecimals, t.weight);
      ValueRounds(t, amount);
    } else {
      assert EntryOf(e, req, Assets) == None;
      NothingRounds();
    }
  }

  lemma NothingRounds()
    ensures Rounds(0, None)
  {
  }

  lemma ValueNeedsDecimals(amount: int, price: int, decimals: nat, weight: int)
    requires amount != 0 && CalcValue(amount, price, decimals, Some(weight)).Ok?
    ensures decimals <= 23
  {
  }

  lemma DebtsRound(e: Exposure, req: Requirement)
    requires e.Sound() && !e.balance.IsEmpty(Liabilities) && e.WeightedLiabilities(req).Ok?
    ensures Rounds(e.WeightedLiabilities(req).value, EntryOf(e, req, Liabilities))
  {
    hide PriceOfType, CalcValue, Product, Rounds;
    var (b, amount) := (e.bank, Product(e.balance.liabilityShares, e.bank.liabilityShareValue));
    var t := EntryOf(e, req, Liabilities).value;
    BiasedPriceNonNegative(e.feed.value, PriceTypeOf(req), High);
    AmountPositive(e.balance.liabilityShares, b.liabilityShareValue);
    ProductBounds(e.balance.liabilityShares, b.liabilityShareValue);
    ValueNeedsDecimals(amount, t.price, b.mintDecimals, t.weight);
    ValueRounds(t, amount);
  }

  /** The program values a balance at what it counts for, rounded down, and does not without
      a price. */
  lemma ValuesRound(e: Exposure, req: Requirement)
    requires e.Sound() && e.WeightedValues(req).Ok?
    ensures Priced(e, req)
    ensures Rounds(e.WeightedValues(req).value.0, EntryOf(e, req, Assets))
    ensures Rounds(e.WeightedValues(req).value.1, EntryOf(e, req, Liabilities))
  {
    hide Exposure.WeightedAssets, Exposure.WeightedLiabilities, Rounds, EntryOf, Priced;
    NothingRounds();
    NothingCounts(e, req);
    ValuesPriced(e, req);
    match e.balance.GetSide().value
    case Some(Assets) => AssetsRound(e, req);
    case Some(Liabilities) => DebtsRound(e, req);
    case None =>
  }

  lemma NothingCounts(e: Exposure, req: Requirement)
    ensures e.balance.IsEmpty(Assets) ==> EntryOf(e, req, Assets) == None
    ensures e.balance.IsEmpty(Liabilities) ==> EntryOf(e, req, Liabilities) == None
  {
  }

  lemma ValuesPriced(e: Exposure, req: Requirement)
    requires e.Sound() && e.WeightedValues(req).Ok?
    ensures Priced(e, req)
  {
    hide CalcValue, PriceOfType, BankState.AssetWeightInitDiscount, CheckedMul;
  }

  // ------------------------------------------------------------ one account

  function Worth(e: Exposure, req: Requirement, side: Side): int {
    match EntryOf(e, req, side) case None => 0 case Some(t) => t.Worth()
  }

  function Rounding(e: Exposure, req: Requirement, side: Side): int {
    match EntryOf(e, req, side) case None => 0 case Some(t) => t.Rounding()
  }

  function TotalWorth(es: seq<Exposure>, req: Requirement, side: Side): int {
    if es == [] then 0 else TotalWorth(es[..|es| - 1], req, side) + Worth(es[|es| - 1], req, side)
  }

  function TotalRounding(es: seq<Exposure>, req: Requirement, side: Side): int {
    if es == [] then 0 else TotalRounding(es[..|es| - 1], req, side) + Rounding(es[|es| - 1], req, side)
  }

  predicate AllSound(es: seq<Exposure>) {
    forall e :: e in es ==> e.Sound()
  }

  predicate AllPriced(es: seq<Exposure>, req: Requirement) {
    forall e :: e in es ==> Priced(e, req)
  }

  /** The totals that every check starts from are the exact worth of what is owned and of
      what is owed, rounded down once per balance. */
  lemma {:induction false} TotalsRound(es: seq<Exposure>, req: Requirement)
    requires AllSound(es) && HealthComponents(es, req).Ok?
    ensures AllPriced(es, req)
    ensures var (assets, debts) := HealthComponents(es, req).value;
            && 0 <= TotalWorth(es, req, Assets) - assets * Ulp() <= TotalRounding(es, req, Assets)
            && 0 <= TotalWorth(es, req, Liabilities) - debts * Ulp() <= TotalRounding(es, req, Liabilities)
  {
    hide Exposure.Sound, Worth, Rounding, Ulp, Priced, HealthComponents, TotalWorth, TotalRounding;
    if es == [] {
      NothingOwned(req);
    } else {
      var e, rest := es[|es| - 1], es[..|es| - 1];
      assert e in es && es == rest + [e];
      OneMoreExposure(es, req);
      TotalsRound(rest, req);
      ExposureRounds(e, req);
      var (assets, debts) := HealthComponents(rest, req).value;
      var (a, l) := e.WeightedValues(req).value;
      BothRound(assets, a, TotalWorth(rest, req, Assets), Worth(e, req, Assets),
                TotalRounding(rest, req, Assets), Rounding(e, req, Assets));
      BothRound(debts, l, TotalWorth(rest, req, Liabilities), Worth(e, req, Liabilities),
                TotalRounding(rest, req, Liabilities), Rounding(e, req, Liabilities));
    }
  }

  lemma NothingOwned(req: Requirement)
    ensures HealthComponents([], req) == Ok((0, 0))
    ensures forall side :: TotalWorth([], req, side) == TotalRounding([], req, side) == 0
  {
  }

  lemma OneMoreExposure(es: seq<Exposure>, req: Requirement)
    requires es != [] && HealthComponents(es, req).Ok?
    ensures var e, rest := es[|es| - 1], es[..|es| - 1];
            && HealthComponents(rest, req).Ok? && e.WeightedValues(req).Ok?
            && HealthComponents(es, req).value.0 == HealthComponents(rest, req).value.0 + e.WeightedValues(req).value.0
            && HealthComponents(es, req).value.1 == HealthComponents(rest, req).value.1 + e.WeightedValues(req).value.1
            && (forall side :: TotalWorth(es, req, side) == TotalWorth(rest, req, side) + Worth(e, req, side))
            && (forall side :: TotalRounding(es, req, side) == TotalRounding(rest, req, side) + Rounding(e, req, side))
  {
    hide Exposure.WeightedValues, Worth, Rounding;
  }

  lemma ExposureRounds(e: Exposure, req: Requirement)
    requires e.Sound() && e.WeightedValues(req).Ok?
    ensures Priced(e, req)
    ensures 0 <= Worth(e, req, Assets) - e.WeightedValues(req).value.0 * Ulp() <= Rounding(e, req, Assets)
    ensures 0 <= Worth(e, req, Liabilities) - e.WeightedValues(req).value.1 * Ulp() <= Rounding(e, req, Liabilities)
  {
    hide Exposure.WeightedValues, Exposure.Sound, EntryOf, Entry.Worth, Entry.Rounding, Ulp, Priced;
    ValuesRound(e, req);
  }

  lemma BothRound(x: int, y: int, v: int, w: int, r: int, s: int)
    requires 0 <= v - x * Ulp() <= r && 0 <= w - y * Ulp() <= s
    ensures 0 <= v + w - (x + y) * Ulp() <= r + s
  {
    hide Ulp;
    assert (x + y) * Ulp() == x * Ulp() + y * Ulp();
  }

  /** An account that passes the initial check owes, at the initial weights of debts and at
      averaged high prices, no more than it owns at the initial weights of
      collateral and at averaged low prices, up to rounding; and one that owns
      as much, rounding included, passes if no isolated debt stands beside another. */
  lemma PassingIsCovered(es: seq<Exposure>)
    requires AllSound(es)
    ensures CheckInitHealth(false, es).Ok? ==>
              && AllPriced(es, Initial)
              && TotalWorth(es, Initial, Liabilities)
                 <= TotalWorth(es, Initial, Assets) + TotalRounding(es, Initial, Liabilities)
    ensures && HealthComponents(es, Initial).Ok? && (forall i: nat, j: nat :: !Mixes(es, i, j))
            && TotalWorth(es, Initial, Liabilities) + TotalRounding(es, Initial, Assets)
               <= TotalWorth(es, Initial, Assets)
            ==> CheckInitHealth(false, es).Ok?
  {
    hide HealthComponents, CheckRiskTiers, AllSound, AllPriced, TotalWorth, TotalRounding, Ulp, Mixes;
    RiskTiersIff(es);
    if HealthComponents(es, Initial).Ok? {
      TotalsRound(es, Initial);
      InUlps(HealthComponents(es, Initial).value.0, HealthComponents(es, Initial).value.1);
    }
  }

  lemma InUlps(x: int, y: int)
    ensures 0 < Ulp()
    ensures x <= y ==> x * Ulp() <= y * Ulp()
    ensures x < y ==> x * Ulp() < y * Ulp()
  {
    hide Pow10;
    if x <= y {
      Scale(x, y, Ulp());
    }
    if x < y {
      Scale(x + 1, y, Ulp());
      assert (x + 1) * Ulp() == x * Ulp() + Ulp();
    }
  }

  /** A bankrupt account owes more than it owns at averaged prices, without weights; it owns
      less than 0.1 and owes more than 0.0001. */
  lemma BankruptIsUnderwater(inFlashloan: bool, es: seq<Exposure>)
    requires AllSound(es) && CheckBankrupt(inFlashloan, es).Ok?
    ensures !inFlashloan && AllPriced(es, Equity)
    ensures TotalWorth(es, Equity, Assets) < TotalWorth(es, Equity, Liabilities) + TotalRounding(es, Equity, Assets)
    ensures TotalWorth(es, Equity, Assets) < BANKRUPT_THRESHOLD * Ulp() + TotalRounding(es, Equity, Assets)
    ensures ZERO_AMOUNT_THRESHOLD * Ulp() < TotalWorth(es, Equity, Liabilities)
  {
    hide HealthComponents, AllSound, AllPriced, TotalWorth, TotalRounding, Ulp;
    TotalsRound(es, Equity);
    var (assets, debts) := HealthComponents(es, Equity).value;
    InUlps(assets, debts);
    InUlps(assets, BANKRUPT_THRESHOLD);
    InUlps(ZERO_AMOUNT_THRESHOLD, debts);
  }

  /** An account that may be liquidated for its debt to bank `pk` has such a debt and owns no
      more than it owes at the maintenance weights and spot prices; the health
      returned is the exact difference, rounded on both sides. */
  lemma LiquidatableIsShort(inFlashloan: bool, es: seq<Exposure>, pk: nat)
    requires AllSound(es) && CheckPreLiquidation(inFlashloan, es, pk).Ok?
    ensures !inFlashloan && AllPriced(es, Maintenance)
    ensures exists e :: e in es && e.balance.bankPk == pk && !e.balance.IsEmpty(Liabilities)
    ensures var health := CheckPreLiquidation(inFlashloan, es, pk).value;
            var owned, owed := TotalWorth(es, Maintenance, Assets), TotalWorth(es, Maintenance, Liabilities);
            && owned <= owed + TotalRounding(es, Maintenance, Assets)
            && health * Ulp() - TotalRounding(es, Maintenance, Liabilities) <= owned - owed
            && owned - owed <= health * Ulp() + TotalRounding(es, Maintenance, Assets)
  {
    hide HealthComponents, AllSound, AllPriced, TotalWorth, TotalRounding, FindExposure, Ulp;
    TotalsRound(es, Maintenance);
    var (assets, debts) := HealthComponents(es, Maintenance).value;
    InUlps(assets, debts);
    assert (assets - debts) * Ulp() == assets * Ulp() - debts * Ulp();
    Found(es, pk);
  }

  lemma {:induction false} Found(es: seq<Exposure>, pk: nat)
    requires FindExposure(es, pk).Some?
    ensures FindExposure(es, pk).value in es && FindExposure(es, pk).value.balance.bankPk == pk
  {
    if es[0].balance.bankPk != pk {
      Found(es[1..], pk);
    }
  }

  // ---------------------------------------------- the discount on collateral

  /** The initial weight of collateral is the configured one while all deposits of the bank
      are worth no more than the limit.  Beyond, it shrinks in proportion: what
      all deposits count for together stays at the limit times the weight. */
  lemma InitWeightIs(bank: BankState, price: int)
    requires bank.Healthy() && 0 <= price && bank.AssetWeightInitDiscount(price).Ok?
    ensures var (w, init, limit) := (InitWeight(bank, price), bank.config.assetWeightInit,
                                     bank.config.totalAssetValueInitLimit * ONE);
            var worth, unit := bank.totalAssetShares * bank.assetShareValue * price,
                               Pow10(bank.mintDecimals) * ONE * ONE;
            && 0 <= w <= init
            && (limit == 0 || worth <= limit * unit ==> w == init)
            && (limit != 0 && (limit + 1) * unit + price * ONE < worth ==>
                  && w * worth <= init * limit * unit + w * (unit + price * ONE)
                  && init * limit * unit * ONE <= (w * ONE + ONE + init) * worth)
  {
    hide CalcValue, Product, Pow10, Truncated;
    InitWeightAtMost(bank, price);
    if bank.config.totalAssetValueInitLimit != 0 {
      var amount, scale := Product(bank.totalAssetShares, bank.assetShareValue), Pow10(bank.mintDecimals);
      ProductBounds(bank.totalAssetShares, bank.assetShareValue);
      UnweightedBounds(amount, price, bank.mintDecimals);
      var v := CalcValue(amount, price, bank.mintDecimals, None).value;
      DepositsWorth(bank.totalAssetShares * bank.assetShareValue, amount, price, scale, v);
      var limit := bank.config.totalAssetValueInitLimit * ONE;
      if limit < v {
        var d := Truncated(limit * ONE, v);
        QuotientBounds(limit, v);
        ProductBounds(bank.config.assetWeightInit, d);
        Discounted(bank.config.assetWeightInit, limit, v, d, InitWeight(bank, price),
                   bank.totalAssetShares * bank.assetShareValue * price, scale * ONE * ONE, price * ONE);
      }
      Compare(limit, v, bank.totalAssetShares * bank.assetShareValue * price, scale * ONE * ONE, price * ONE);
    }
  }

  lemma DepositsWorth(whole: int, amount: int, price: int, scale: int, v: int)
    requires 0 <= price && amount * ONE <= whole < amount * ONE + ONE
    requires v * scale * ONE <= amount * price < (v + 1) * scale * ONE
    ensures v * (scale * ONE * ONE) <= whole * price <= (v + 1) * (scale * ONE * ONE) + price * ONE
  {
    Scale(amount * ONE, whole, price);
    Scale(whole, amount * ONE + ONE, price);
    assert amount * ONE * price == amount * price * ONE;
    assert (amount * ONE + ONE) * price == amount * price * ONE + price * ONE;
  }

  lemma Compare(limit: int, v: int, worth: int, unit: int, slack: int)
    requires 0 < unit && v * unit <= worth <= (v + 1) * unit + slack
    ensures worth <= limit * unit ==> v <= limit
    ensures (limit + 1) * unit + slack < worth ==> limit < v
  {
    if limit < v {
      Scale(limit + 1, v, unit);
      assert (limit + 1) * unit == limit * unit + unit;
    } else {
      Scale(v + 1, limit + 1, unit);
    }
  }

  lemma Discounted(init: int, limit: int, v: int, d: int, w: int, worth: int, unit: int, slack: int)
    requires 0 <= init && 0 <= w && 0 < v && 0 < unit
    requires IsQuotient(limit, v, d) && IsProduct(init, d, w)
    requires v * unit <= worth <= (v + 1) * unit + slack
    ensures w * worth <= init * limit * unit + w * (unit + slack)
    ensures init * limit * unit * ONE <= (w * ONE + ONE + init) * worth
  {
    DiscountChain(init, limit, v, d, w);
    AtMostWorth(init * limit, v, w, worth, unit, slack);
    AtLeastWorth(init * limit, v, w * ONE + ONE + init, worth, unit);
  }

  lemma DiscountChain(init: int, limit: int, v: int, d: int, w: int)
    requires 0 <= init && 0 < v && IsQuotient(limit, v, d) && IsProduct(init, d, w)
    ensures w * v <= init * limit && init * limit * ONE <= (w * ONE + ONE + init) * v
  {
    Scale(w * ONE, init * d, v);
    Scale(d * v, limit * ONE, init);
    assert init * d * v == d * v * init && limit * ONE * init == init * limit * ONE && w * ONE * v == w * v * ONE;
    Scale(limit * ONE, d * v + v, init);
    Scale(init * d, w * ONE + ONE, v);
    assert (d * v + v) * init == init * d * v + init * v;
    assert (w * ONE + ONE) * v + init * v == (w * ONE + ONE + init) * v;
  }

  lemma AtMostWorth(whole: int, v: int, w: int, worth: int, unit: int, slack: int)
    requires 0 <= w && 0 < unit && w * v <= whole && worth <= (v + 1) * unit + slack
    ensures w * worth <= whole * unit + w * (unit + slack)
  {
    Scale(worth, (v + 1) * unit + slack, w);
    Scale(w * v, whole, unit);
    assert ((v + 1) * unit + slack) * w == w * v * unit + w * (unit + slack);
  }

  lemma AtLeastWorth(whole: int, v: int, k: int, worth: int, unit: int)
    requires 0 <= k && 0 < unit && whole * ONE <= k * v && v * unit <= worth
    ensures whole * unit * ONE <= k * worth
  {
    Scale(whole * ONE, k * v, unit);
    Scale(v * unit, worth, k);
    assert k * v * unit == v * unit * k && whole * ONE * unit == whole * unit * ONE;
  }

  // ------------------------------------------- weights that decide a borrow

  /** Collateral that counts in full, and a debt that counts for more before borrowing than
      after. */
  predicate Graded(config: BankConfig) {
    && config.Valid() && config.riskTier == Collateral && config.totalAssetValueInitLimit == 0
    && config.assetWeightInit == config.assetWeightMaint == ONE
    && config.liabilityWeightMaint < config.liabilityWeightInit <= MAX
  }

  /** For any two such weights some account may not borrow what it owes, though it is not
      short by the maintenance weights. */
  lemma InitialWeightsDecide(config: BankConfig)
    requires Graded(config)
    ensures var es := TwoBalances(config, config.liabilityWeightInit - 1, ONE, PAR, PAR);
            && CheckInitHealth(false, es) == Err(RiskEngineInitRejected)
            && MaintenanceHealth(es) == Ok(config.liabilityWeightInit - 1 - config.liabilityWeightMaint)
            && 0 <= config.liabilityWeightInit - 1 - config.liabilityWeightMaint
  {
    hide PriceOfType, CalcValue, Product, Exposure.WeightedValues;
    var owned := config.liabilityWeightInit - 1;
    var es := TwoBalances(config, owned, ONE, PAR, PAR);
    OwnedAtPar(config, owned, Initial);
    OwnedAtPar(config, owned, Maintenance);
    OwedAtPar(config, owned, Initial);
    OwedAtPar(config, owned, Maintenance);
    assert es[..1] == [es[0]] && [es[0]][..0] == [];
    assert HealthComponents([es[0]], Initial) == Ok((owned, 0));
    assert HealthComponents([es[0]], Maintenance) == Ok((owned, 0));
    assert HealthComponents(es, Initial) == Ok((owned, config.liabilityWeightInit));
    assert HealthComponents(es, Maintenance) == Ok((owned, config.liabilityWeightMaint));
  }

  lemma OwnedAtPar(config: BankConfig, owned: int, req: Requirement)
    requires Graded(config) && ONE <= owned <= MAX && req != Equity
    ensures TwoBalances(config, owned, ONE, PAR, PAR)[0].WeightedValues(req) == Ok((owned, 0))
  {
    hide PriceOfType, CalcValue, Product;
    ParIsOne(PriceTypeOf(req), Low);
    PlainValue(owned, ONE);
    TimesOne(owned);
  }

  lemma OwedAtPar(config: BankConfig, owned: int, req: Requirement)
    requires Graded(config) && req != Equity
    ensures var weight := if req == Initial then config.liabilityWeightInit else config.liabilityWeightMaint;
            TwoBalances(config, owned, ONE, PAR, PAR)[1].WeightedValues(req) == Ok((0, weight))
  {
    hide PriceOfType, CalcValue, Product;
    ParIsOne(PriceTypeOf(req), High);
    TimesOne(ONE);
    OneTokenValue(if req == Initial then config.liabilityWeightInit else config.liabilityWeightMaint);
  }

  lemma OneTokenValue(weight: int)
    requires 0 <= weight <= MAX
    ensures CalcValue(ONE, ONE, 0, Some(weight)) == Ok(weight)
  {
    assert Product(ONE, weight) == weight == Product(weight, ONE);
    assert Truncated(weight * ONE, Pow10(0) * ONE) == weight;
  }
}
