/** What a liquidation does to the health of the account liquidated, as the weights
    of the two banks decide it, and when the program therefore refuses it. */
module Liquidations {
  import opened Results
  import opened FixedPoint
  import opened Interest
  import opened Valuation
  import opened Banks
  import opened Positions
  import opened Prices
  import opened Risk
  import opened Ledger
  import opened Instructions
  import opened Effects
  import opened Conservation
  import opened Runs

  // ------------------------------------------------------- health as a sum

  /** What a balance adds to maintenance health. */
  function Worth(e: Exposure): int {
    var v := e.WeightedValues(Maintenance);
    if v.Ok? then v.value.0 - v.value.1 else 0
  }

  function TotalWorth(es: seq<Exposure>): int {
    if es == [] then 0 else TotalWorth(es[..|es| - 1]) + Worth(es[|es| - 1])
  }

  lemma {:induction false} HealthIsWorth(es: seq<Exposure>)
    requires HealthComponents(es, Maintenance).Ok?
    ensures var (assets, liabilities) := HealthComponents(es, Maintenance).value; assets - liabilities == TotalWorth(es)
    ensures forall e :: e in es ==> e.WeightedValues(Maintenance).Ok?
  {
    hide Exposure.WeightedValues;
    if es != [] {
      HealthIsWorth(es[..|es| - 1]);
      assert es == es[..|es| - 1] + [es[|es| - 1]];
    }
  }

  lemma {:induction false} TotalWorthConcat(a: seq<Exposure>, b: seq<Exposure>)
    ensures TotalWorth(a + b) == TotalWorth(a) + TotalWorth(b)
  {
    hide Worth;
    if b == [] {
      assert a + b == a;
    } else {
      assert (a + b)[..|a + b| - 1] == a + b[..|b| - 1];
      TotalWorthConcat(a, b[..|b| - 1]);
    }
  }

  /** The exposure of balance `b`, if it is active. */
  function ExposureOf(m: Market, b: BalanceState, feeds: map<nat, Feed>): seq<Exposure> {
    if b.active && b.bankPk in m.pools
    then [Exposure(b, m.pools[b.bankPk].bank, if b.bankPk in feeds then Some(feeds[b.bankPk]) else None)]
    else []
  }

  function BalancesWorth(m: Market, bs: seq<BalanceState>, feeds: map<nat, Feed>): int {
    if bs == [] then 0 else TotalWorth(ExposureOf(m, bs[0], feeds)) + BalancesWorth(m, bs[1..], feeds)
  }

  lemma {:induction false} ExposuresWorth(m: Market, bs: seq<BalanceState>, feeds: map<nat, Feed>)
    ensures TotalWorth(ExposuresOf(m, bs, feeds)) == BalancesWorth(m, bs, feeds)
  {
    hide Worth;
    if bs != [] {
      ExposuresWorth(m, bs[1..], feeds);
      TotalWorthConcat(ExposureOf(m, bs[0], feeds), ExposuresOf(m, bs[1..], feeds));
    }
  }

  lemma {:induction false} BalancesWorthUpdate(m: Market, bs: seq<BalanceState>, i: nat, b: BalanceState,
                                               feeds: map<nat, Feed>)
    requires i < |bs|
    ensures BalancesWorth(m, bs[i := b], feeds)
            == BalancesWorth(m, bs, feeds) - TotalWorth(ExposureOf(m, bs[i], feeds)) + TotalWorth(ExposureOf(m, b, feeds))
  {
    hide Worth, TotalWorth;
    if i == 0 {
      assert bs[i := b][1..] == bs[1..];
    } else {
      assert bs[i := b][1..] == bs[1..][i - 1 := b];
      BalancesWorthUpdate(m, bs[1..], i - 1, b, feeds);
    }
  }

  // ----------------------------------------- banks on the same terms

  /** No share value and no configuration has changed. */
  predicate AllSameTerms(m: Market, m': Market) {
    m'.pools.Keys == m.pools.Keys && forall k :: k in m.pools ==> SameTerms(m.pools[k].bank, m'.pools[k].bank)
  }

  lemma AllSameTermsThen(m: Market, m1: Market, m2: Market)
    requires AllSameTerms(m, m1) && AllSameTerms(m1, m2)
    ensures AllSameTerms(m, m2)
  {
    forall k | k in m.pools
      ensures SameTerms(m.pools[k].bank, m2.pools[k].bank)
    {
      assert SameTerms(m.pools[k].bank, m1.pools[k].bank) && SameTerms(m1.pools[k].bank, m2.pools[k].bank);
    }
  }

  lemma WorthOnTerms(e: Exposure, bank: BankState)
    requires SameTerms(e.bank, bank)
    ensures Worth(e.(bank := bank)) == Worth(e)
  {
    hide CalcValue, PriceOfType, CheckedMul;
  }

  lemma {:induction false} BalancesWorthOnTerms(m: Market, m': Market, bs: seq<BalanceState>, feeds: map<nat, Feed>)
    requires AllSameTerms(m, m')
    ensures BalancesWorth(m', bs, feeds) == BalancesWorth(m, bs, feeds)
  {
    hide Worth, SameTerms;
    if bs != [] {
      BalancesWorthOnTerms(m, m', bs[1..], feeds);
      ExposureOnTerms(m, m', bs[0], feeds);
    }
  }

  lemma ExposureOnTerms(m: Market, m': Market, b: BalanceState, feeds: map<nat, Feed>)
    requires AllSameTerms(m, m')
    ensures TotalWorth(ExposureOf(m', b, feeds)) == TotalWorth(ExposureOf(m, b, feeds))
  {
    hide Worth, SameTerms;
    if b.active && b.bankPk in m.pools {
      var e := ExposureOf(m, b, feeds)[0];
      WorthOnTerms(e, m'.pools[b.bankPk].bank);
      OneWorth(e);
      OneWorth(ExposureOf(m', b, feeds)[0]);
    }
  }

  lemma OneWorth(e: Exposure)
    ensures TotalWorth([e]) == Worth(e)
  {
    hide Worth;
    assert [e][..0] == [];
  }

  // ------------------------------------------------ the balances that change

  /** `b'` is `b` with shares added on both sides. */
  predicate Reshaped(b: BalanceState, b': BalanceState, assets: int, liabilities: int) {
    && b'.active && b'.bankPk == b.bankPk
    && b'.assetShares == b.assetShares + assets && b'.liabilityShares == b.liabilityShares + liabilities
  }

  /** Slot `i` of account `a` becomes `b`, and no other balance changes. */
  predicate OnlySlot(m: Market, m': Market, a: nat, i: nat, b: BalanceState) {
    && a < |m.accounts| && i < |m.accounts[a].balances|
    && m'.accounts == m.accounts[a := m.accounts[a].(balances := m.accounts[a].balances[i := b])]
  }

  lemma PayOutIs(m: Market, a: nat, pk: nat, delta: int, kind: DecreaseType, create: bool, now: nat)
    requires Inv(m) && 0 <= delta && PayOut(m, a, pk, delta, kind, create, now).Ok?
    ensures pk in m.pools && a < |m.accounts| && SlotFor(m.accounts[a].balances, pk, create, now).Ok?
    ensures m.pools[pk].bank.Healthy()
    ensures var m' := PayOut(m, a, pk, delta, kind, create, now).value;
            var (i, b) := SlotFor(m.accounts[a].balances, pk, create, now).value;
            var (x, y) := LowerShares(Position(m.pools[pk].bank, b), delta);
            && AllSameTerms(m, m') && a < |m'.accounts| && i < |m'.accounts[a].balances|
            && OnlySlot(m, m', a, i, m'.accounts[a].balances[i])
            && Reshaped(b, m'.accounts[a].balances[i], -x, y)
            && (kind == WithdrawOnly ==>
                  delta < Product(b.assetShares, m.pools[pk].bank.assetShareValue) + ZERO_AMOUNT_THRESHOLD)
  {
    hide Inv, Position.ClaimEmissions, Position.Lower, LowerShares, SlotFits, Holding, Product;
    PoolIsOk(m, pk);
    SlotForFits(m, pk, a, create, now);
    var (i, p) := PositionAt(m, a, pk, create, now).value;
    ClaimMoves(p, now);
    var c := p.ClaimEmissions(now).value;
    LowerIs(c, delta, kind);
    SameLower(p, c, delta);
    SlotInside(m, pk, a, i);
    NotMuchMore(c, delta, kind);
  }

  /** A pure withdrawal asks for less than 0.0001 more than there is. */
  lemma NotMuchMore(p: Position, delta: int, kind: DecreaseType)
    requires kind == WithdrawOnly ==> p.Lower(delta, kind).Ok?
    ensures kind == WithdrawOnly ==>
              delta < Product(p.balance.assetShares, p.bank.assetShareValue) + ZERO_AMOUNT_THRESHOLD
  {
  }

  lemma SlotInside(m: Market, pk: nat, a: nat, i: nat)
    requires SlotFits(m, pk, a, i)
    ensures a < |m.accounts| && i < |m.accounts[a].balances|
  {
  }

  lemma SameLower(p: Position, c: Position, delta: int)
    requires p.Sound() && SameTerms(p.bank, c.bank)
    requires c.balance.assetShares == p.balance.assetShares && c.balance.liabilityShares == p.balance.liabilityShares
    ensures LowerShares(c, delta) == LowerShares(p, delta)
  {
  }

  lemma PayInIs(m: Market, a: nat, pk: nat, delta: int, kind: IncreaseType, create: bool, now: nat)
    requires Inv(m) && 0 <= delta && PayIn(m, a, pk, delta, kind, create, now).Ok?
    ensures pk in m.pools && a < |m.accounts| && SlotFor(m.accounts[a].balances, pk, create, now).Ok?
    ensures m.pools[pk].bank.Healthy()
    ensures var m' := PayIn(m, a, pk, delta, kind, create, now).value;
            var (i, b) := SlotFor(m.accounts[a].balances, pk, create, now).value;
            var (x, y) := RaiseShares(Position(m.pools[pk].bank, b), delta);
            && AllSameTerms(m, m') && a < |m'.accounts| && i < |m'.accounts[a].balances|
            && OnlySlot(m, m', a, i, m'.accounts[a].balances[i])
            && Reshaped(b, m'.accounts[a].balances[i], x, -y)
  {
    hide Inv, Position.ClaimEmissions, Position.Raise, RaiseShares, SlotFits, Holding;
    PoolIsOk(m, pk);
    SlotForFits(m, pk, a, create, now);
    var (i, p) := PositionAt(m, a, pk, create, now).value;
    ClaimMoves(p, now);
    var c := p.ClaimEmissions(now).value;
    RaiseIs(c, delta, kind);
    SameRaise(p, c, delta);
    SlotInside(m, pk, a, i);
  }

  lemma SameRaise(p: Position, c: Position, delta: int)
    requires p.Sound() && SameTerms(p.bank, c.bank)
    requires c.balance.assetShares == p.balance.assetShares && c.balance.liabilityShares == p.balance.liabilityShares
    ensures RaiseShares(c, delta) == RaiseShares(p, delta)
  {
  }

  /** Changing the balance of one bank does not move that of another. */
  lemma FindAfter(bs: seq<BalanceState>, i: nat, b: BalanceState, pk: nat)
    requires Distinct(bs) && i < |bs| && bs[i].active && b.active && b.bankPk == bs[i].bankPk && b.bankPk != pk
    requires FindBalance(bs, pk).Some?
    ensures FindBalance(bs[i := b], pk) == FindBalance(bs, pk)
  {
    var j, bs' := FindBalance(bs, pk).value, bs[i := b];
    assert bs'[j] == bs[j];
    var k := FindBalance(bs', pk).value;
    assert bs[k].active && bs[k].bankPk == pk;
    assert k == j;
  }

  lemma BookInsuranceFeeIs(m: Market, pk: nat, fee: int)
    requires BookInsuranceFee(m, pk, fee).Ok?
    ensures var m' := BookInsuranceFee(m, pk, fee).value; AllSameTerms(m, m') && m'.accounts == m.accounts
  {
  }

  /** The liquidated account's balances after the swap: collateral taken from slot
      `i`, debt taken from slot `j`, and nothing else. */
  ghost predicate Swapped(m: Market, m': Market, a: nat, i: nat, j: nat, assetPk: nat, debtPk: nat, amount: nat,
                          received: int)
    requires assetPk in m.pools && debtPk in m.pools
    requires m.pools[assetPk].bank.Healthy() && m.pools[debtPk].bank.Healthy()
  {
    && a < |m.accounts| && a < |m'.accounts|
    && var (bs, bs') := (m.accounts[a].balances, m'.accounts[a].balances);
       && i < |bs| && j < |bs| && i != j && |bs'| == |bs| && bs' == bs[i := bs'[i]][j := bs'[j]]
       && FindBalance(bs, assetPk) == Some(i) && FindBalance(bs, debtPk) == Some(j)
       && var (x, y) := LowerShares(Position(m.pools[assetPk].bank, bs[i]), amount * ONE);
          var (u, v) := RaiseShares(Position(m.pools[debtPk].bank, bs[j]), received);
          && Reshaped(bs[i], bs'[i], -x, y) && Reshaped(bs[j], bs'[j], u, -v)
          && amount * ONE < Product(bs[i].assetShares, m.pools[assetPk].bank.assetShareValue) + ZERO_AMOUNT_THRESHOLD
  }

  lemma SwapIs(m: Market, liquidator: nat, liquidatee: nat, assetPk: nat, debtPk: nat, amount: nat,
               paid: int, received: int, now: nat, j: nat)
    requires Inv(m) && 0 <= received <= paid && assetPk != debtPk && liquidator != liquidatee
    requires SwapPositions(m, liquidator, liquidatee, assetPk, debtPk, amount, paid, received, now).Ok?
    requires liquidatee < |m.accounts| && FindBalance(m.accounts[liquidatee].balances, debtPk) == Some(j)
    ensures assetPk in m.pools && debtPk in m.pools
    ensures m.pools[assetPk].bank.Healthy() && m.pools[debtPk].bank.Healthy()
    ensures FindBalance(m.accounts[liquidatee].balances, assetPk).Some?
    ensures var m' := SwapPositions(m, liquidator, liquidatee, assetPk, debtPk, amount, paid, received, now).value;
            var i := FindBalance(m.accounts[liquidatee].balances, assetPk).value;
            AllSameTerms(m, m') && Swapped(m, m', liquidatee, i, j, assetPk, debtPk, amount, received)
  {
    hide Inv, PayOut, PayIn, BookInsuranceFee, FindBalance, LowerShares, RaiseShares, FirstEmptyFrom, SameTerms, Net,
         Product;
    var m1 := PayOut(m, liquidator, debtPk, paid, BypassBorrowLimit, true, now).value;
    PayOutIs(m, liquidator, debtPk, paid, BypassBorrowLimit, true, now);
    PayOutEffect(m, liquidator, debtPk, paid, BypassBorrowLimit, true, now);
    var m2 := PayOut(m1, liquidatee, assetPk, amount * ONE, WithdrawOnly, false, now).value;
    PayOutIs(m1, liquidatee, assetPk, amount * ONE, WithdrawOnly, false, now);
    PayOutEffect(m1, liquidatee, assetPk, amount * ONE, WithdrawOnly, false, now);
    var m3 := PayIn(m2, liquidator, assetPk, amount * ONE, BypassDepositLimit, true, now).value;
    PayInIs(m2, liquidator, assetPk, amount * ONE, BypassDepositLimit, true, now);
    PayInEffect(m2, liquidator, assetPk, amount * ONE, BypassDepositLimit, true, now);
    var m4 := PayIn(m3, liquidatee, debtPk, received, AnyIncrease, true, now).value;
    PayInIs(m3, liquidatee, debtPk, received, AnyIncrease, true, now);
    BookInsuranceFeeIs(m4, debtPk, paid - received);
    AllSameTermsThen(m, m1, m2);
    AllSameTermsThen(m, m2, m3);
    AllSameTermsThen(m, m3, m4);
    AllSameTermsThen(m, m4, BookInsuranceFee(m4, debtPk, paid - received).value);
    PoolIsOk(m, assetPk);
    PoolIsOk(m, debtPk);
    var bs := m.accounts[liquidatee].balances;
    var i := FindBalance(bs, assetPk).value;
    FoundIs(bs, assetPk);
    var bi := m2.accounts[liquidatee].balances[i];
    AccountIsDistinct(m, liquidatee);
    FindAfter(bs, i, bi, debtPk);
    FoundIs(bs, debtPk);
    SameLowerShares(m.pools[assetPk].bank, m1.pools[assetPk].bank, bs[i], amount * ONE);
    SameRaiseShares(m.pools[debtPk].bank, m3.pools[debtPk].bank, bs[j], received);
  }

  lemma FoundIs(bs: seq<BalanceState>, pk: nat)
    requires FindBalance(bs, pk).Some?
    ensures var i := FindBalance(bs, pk).value; i < |bs| && bs[i].active && bs[i].bankPk == pk
  {
  }

  lemma AccountIsDistinct(m: Market, a: nat)
    requires Inv(m) && a < |m.accounts|
    ensures Distinct(m.accounts[a].balances)
    ensures forall i :: 0 <= i < |m.accounts[a].balances| ==> m.accounts[a].balances[i].Sound()
  {
    assert AccountOk(m.accounts[a], m.pools.Keys);
  }

  lemma SameLowerShares(bank: BankState, bank': BankState, b: BalanceState, delta: int)
    requires bank.Healthy() && bank'.Healthy() && SameTerms(bank, bank')
    ensures LowerShares(Position(bank', b), delta) == LowerShares(Position(bank, b), delta)
    ensures Product(b.assetShares, bank'.assetShareValue) == Product(b.assetShares, bank.assetShareValue)
  {
  }

  lemma SameRaiseShares(bank: BankState, bank': BankState, b: BalanceState, delta: int)
    requires bank.Healthy() && bank'.Healthy() && SameTerms(bank, bank')
    ensures RaiseShares(Position(bank', b), delta) == RaiseShares(Position(bank, b), delta)
  {
  }

  // ---------------------------------------------------- the change in health

  /** The share of the collateral's worth that the account is relieved of: 95%. */
  const RELIEF: int := ONE - 2 * 7_036_874_417_766

  /** What decides how a liquidation changes maintenance health: the tokens taken, and
      of either bank the price, ten to its decimals, a share's value and the weight. */
  datatype Deal = Deal(amount: nat, price: int, scale: int, shareValue: int, weight: int,
                       debtPrice: int, debtScale: int, debtShareValue: int, debtWeight: int)
  {
    predicate Valid() {
      && 0 <= price && 0 < scale && 0 < shareValue && 0 <= weight
      && 0 < debtPrice && 0 < debtScale && ONE <= debtShareValue && 0 <= debtWeight
    }

    /** One ulp of health in the exact unit. */
    function Unit(): int {
      scale * debtScale * ONE * ONE * ONE
    }

    /** The worth of the collateral at weight one. */
    function Collateral(): int {
      amount * ONE * price * debtScale
    }

    /** The exact change: 95% of the debt's weight less the collateral's weight. */
    function Change(): int {
      Collateral() * (RELIEF * debtWeight - ONE * weight)
    }

    function AssetRounding(): int {
      (scale * ONE * ONE + price * ONE + 1) * debtScale * ONE
    }

    function DebtRounding(): int {
      (debtScale * ONE * ONE + debtPrice * ONE + 1) * scale * ONE
    }

    /** How much less than 95% of the collateral's worth the debt relieved can be. */
    function QuoteRounding(): int {
      debtPrice * scale * ONE + debtScale * ONE * scale * ONE + (price * ONE + 1) * debtScale
    }

    /** By how much less than asked for the collateral taken can be: a share, an ulp, and the
        0.0001 by which the amount may exceed it. */
    function Slip(): int {
      shareValue + ONE + ZERO_AMOUNT_THRESHOLD * ONE
    }

    /** The worth of one share of collateral, which is dropped if less than that is left. */
    function Dust(): int {
      shareValue * ONE * weight * price * debtScale
    }

    /** How much less than exact the change can be, */
    function Below(): int {
      debtWeight * QuoteRounding()
      + (debtShareValue + ONE) * debtWeight * debtPrice * scale + DebtRounding() + AssetRounding() + Dust()
    }

    /** and how much more. */
    function Above(): int {
      Slip() * weight * price * debtScale + AssetRounding() + DebtRounding()
    }
  }

  /** `v` is the value of `amount` at a weight and price. */
  ghost predicate IsValue(v: int, amount: int, weight: int, price: int, scale: int) {
    v * scale * ONE * ONE <= amount * weight * price < (v + 1) * scale * ONE * ONE + price * ONE + 1
  }

  /** Shares for `delta` taken off `shares` lower their amount by about `delta`. */
  lemma AmountTaken(shares: int, x: int, value: int, delta: int)
    requires IsQuotient(delta, value, x)
    ensures var taken := Product(shares, value) - Product(shares - x, value);
            taken <= delta && delta * ONE - value - ONE <= taken * ONE
  {
    ProductBounds(shares, value);
    ProductBounds(shares - x, value);
    assert (shares - x) * value == shares * value - x * value;
  }

  lemma ValueTaken(v0: int, v1: int, a0: int, a1: int, weight: int, price: int, scale: int)
    requires IsValue(v0, a0, weight, price, scale) && IsValue(v1, a1, weight, price, scale)
    ensures var (exact, rounding) := ((a0 - a1) * (weight * price), scale * ONE * ONE + price * ONE + 1);
            exact - rounding <= (v0 - v1) * scale * ONE * ONE <= exact + rounding
  {
    assert (a0 - a1) * (weight * price) == a0 * weight * price - a1 * weight * price;
    assert (v0 - v1) * scale == v0 * scale - v1 * scale;
    assert (v0 + 1) * scale == v0 * scale + scale && (v1 + 1) * scale == v1 * scale + scale;
  }

  lemma Exact(d: Deal, v: int)
    ensures v * d.scale * ONE * ONE * (d.debtScale * ONE) == v * d.Unit()
    ensures v * d.debtScale * ONE * ONE * (d.scale * ONE) == v * d.Unit()
  {
    Shuffle(v, d.scale, d.debtScale);
  }

  lemma Shuffle(v: int, s: int, t: int)
    ensures v * s * ONE * ONE * (t * ONE) == v * (s * t * ONE * ONE * ONE) == v * t * ONE * ONE * (s * ONE)
  {
    assert v * s * t == v * (s * t) && v * t * s == v * (s * t);
  }

  lemma ExactCollateral(d: Deal, k: int)
    ensures k * (d.weight * d.price) * (d.debtScale * ONE) == k * ONE * d.price * d.debtScale * d.weight
  {
    var w, p, t := d.weight, d.price, d.debtScale;
    assert k * (w * p) == k * p * w;
    assert k * p * w * t == k * p * t * w;
  }

  /** The collateral taken lowers the value of assets by its weighted worth. */
  lemma CollateralTaken(d: Deal, taken: int, v: int)
    requires d.Valid() && taken <= d.amount * ONE + d.shareValue
    requires d.amount * ONE * ONE - d.Slip() <= taken * ONE
    requires var (exact, rounding) := (taken * (d.weight * d.price), d.scale * ONE * ONE + d.price * ONE + 1);
             exact - rounding <= v * d.scale * ONE * ONE <= exact + rounding
    ensures v * d.Unit() <= d.Collateral() * (ONE * d.weight) + d.AssetRounding() + d.Dust()
    ensures d.Collateral() * (ONE * d.weight) - d.Slip() * d.weight * d.price * d.debtScale - d.AssetRounding()
            <= v * d.Unit()
  {
    var (wp, k, rounding) := (d.weight * d.price, d.debtScale * ONE, d.scale * ONE * ONE + d.price * ONE + 1);
    Scale(0, d.weight, d.price);
    Exact(d, v);
    ScaledBetween(v * d.scale * ONE * ONE, taken * wp, rounding, k);
    TakenAtMost(d, taken);
    TakenAtLeast(d, taken);
    assert rounding * k == d.AssetRounding();
  }

  lemma ScaledBetween(x: int, exact: int, rounding: int, k: int)
    requires exact - rounding <= x <= exact + rounding && 0 <= k
    ensures exact * k - rounding * k <= x * k <= exact * k + rounding * k
  {
    Scale(exact - rounding, x, k);
    Scale(x, exact + rounding, k);
    assert (exact - rounding) * k == exact * k - rounding * k && (exact + rounding) * k == exact * k + rounding * k;
  }

  lemma TakenAtMost(d: Deal, taken: int)
    requires d.Valid() && taken <= d.amount * ONE + d.shareValue
    ensures taken * (d.weight * d.price) * (d.debtScale * ONE) <= d.Collateral() * (ONE * d.weight) + d.Dust()
  {
    var wp, k, most := d.weight * d.price, d.debtScale * ONE, d.amount * ONE + d.shareValue;
    Scale(0, d.weight, d.price);
    Scale(taken, most, wp);
    Scale(taken * wp, most * wp, k);
    assert most * wp == d.amount * ONE * wp + d.shareValue * wp;
    assert (d.amount * ONE * wp + d.shareValue * wp) * k == d.amount * ONE * wp * k + d.shareValue * wp * k;
    ExactCollateral(d, d.amount * ONE);
    Reassociate(d.amount * ONE, d.price, d.debtScale, d.weight);
    Regroup(d.shareValue, wp, d.debtScale);
    Triple(d.shareValue * ONE, d.weight, d.price, d.debtScale);
  }

  lemma Reassociate(a: int, p: int, t: int, w: int)
    ensures a * ONE * p * t * w == a * p * t * (ONE * w)
  {
    assert a * ONE * p * t == a * p * t * ONE;
  }

  lemma TakenAtLeast(d: Deal, taken: int)
    requires d.Valid() && d.amount * ONE * ONE - d.Slip() <= taken * ONE
    ensures d.Collateral() * (ONE * d.weight) - d.Slip() * d.weight * d.price * d.debtScale
            <= taken * (d.weight * d.price) * (d.debtScale * ONE)
  {
    var wp, t := d.weight * d.price, d.debtScale;
    var wpt := wp * t;
    Scale(0, d.weight, d.price);
    Scale(0, wp, t);
    var left := d.amount * ONE * ONE - d.Slip();
    Scale(left, taken * ONE, wpt);
    assert left * wpt == d.amount * ONE * ONE * wpt - d.Slip() * wpt;
    Regroup(taken, wp, t);
    Regroup(d.amount * ONE, wp, t);
    ExactCollateral(d, d.amount * ONE);
    Reassociate(d.amount * ONE, d.price, d.debtScale, d.weight);
    Triple(d.Slip(), d.weight, d.price, t);
  }

  lemma Regroup(x: int, wp: int, t: int)
    ensures x * ONE * (wp * t) == x * wp * (t * ONE)
  {
    assert x * (wp * t) == x * wp * t;
  }

  lemma Triple(x: int, w: int, p: int, t: int)
    ensures x * (w * p * t) == x * w * p * t
  {
    assert x * (w * p) == x * w * p;
  }

  /** The debt relieved lowers the value of liabilities by its weighted worth. */
  lemma DebtTaken(d: Deal, received: int, taken: int, v: int)
    requires d.Valid() && taken <= received && received * ONE - d.debtShareValue - ONE <= taken * ONE
    requires var (exact, rounding) := (taken * (d.debtWeight * d.debtPrice),
                                       d.debtScale * ONE * ONE + d.debtPrice * ONE + 1);
             exact - rounding <= v * d.debtScale * ONE * ONE <= exact + rounding
    ensures var worth := received * d.debtPrice * d.scale * ONE;
            && v * d.Unit() <= d.debtWeight * worth + d.DebtRounding()
            && d.debtWeight * worth - (d.debtShareValue + ONE) * d.debtWeight * d.debtPrice * d.scale - d.DebtRounding()
               <= v * d.Unit()
  {
    var (wp, k, rounding) := (d.debtWeight * d.debtPrice, d.scale * ONE, d.debtScale * ONE * ONE + d.debtPrice * ONE + 1);
    Exact(d, v);
    ScaledBetween(v * d.debtScale * ONE * ONE, taken * wp, rounding, k);
    assert rounding * k == d.DebtRounding();
    RelievedBetween(d, received, taken);
  }

  lemma RelievedBetween(d: Deal, received: int, taken: int)
    requires d.Valid() && taken <= received && received * ONE - d.debtShareValue - ONE <= taken * ONE
    ensures var worth, exact := received * d.debtPrice * d.scale * ONE,
                                taken * (d.debtWeight * d.debtPrice) * (d.scale * ONE);
            d.debtWeight * worth - (d.debtShareValue + ONE) * d.debtWeight * d.debtPrice * d.scale
            <= exact <= d.debtWeight * worth
  {
    var wp, s := d.debtWeight * d.debtPrice, d.scale;
    var wps := wp * s;
    Scale(0, d.debtWeight, d.debtPrice);
    Scale(0, wp, s);
    Scale(taken * ONE, received * ONE, wps);
    var left := received * ONE - (d.debtShareValue + ONE);
    Scale(left, taken * ONE, wps);
    assert left * wps == received * ONE * wps - (d.debtShareValue + ONE) * wps;
    Regroup(taken, wp, s);
    Relieved(received, d.debtWeight, d.debtPrice, s);
    Triple(d.debtShareValue + ONE, d.debtWeight, d.debtPrice, s);
  }

  lemma Relieved(r: int, w: int, p: int, s: int)
    ensures r * ONE * (w * p * s) == w * (r * p * s * ONE)
  {
    assert r * (w * p * s) == w * (r * p * s) by {
      assert w * p * s == w * (p * s) && r * p * s == r * (p * s);
      assert r * (w * (p * s)) == w * (r * (p * s));
    }
    assert w * (r * p * s * ONE) == w * (r * p * s) * ONE;
  }

  /** The two together, with the quote that ties them. */
  lemma HealthChange(d: Deal, received: int, assets: int, debts: int)
    requires d.Valid()
    requires var worth := received * d.debtPrice * d.scale * ONE;
             && worth <= d.Collateral() * RELIEF
             && d.Collateral() * RELIEF
                <= worth + d.QuoteRounding()
             && debts * d.Unit() <= d.debtWeight * worth + d.DebtRounding()
             && d.debtWeight * worth - (d.debtShareValue + ONE) * d.debtWeight * d.debtPrice * d.scale - d.DebtRounding()
                <= debts * d.Unit()
    requires assets * d.Unit() <= d.Collateral() * (ONE * d.weight) + d.AssetRounding() + d.Dust()
    requires d.Collateral() * (ONE * d.weight) - d.Slip() * d.weight * d.price * d.debtScale - d.AssetRounding()
             <= assets * d.Unit()
    ensures d.Change() - d.Below() <= (debts - assets) * d.Unit() <= d.Change() + d.Above()
  {
    hide Deal.Unit, Deal.Collateral, Deal.AssetRounding, Deal.DebtRounding, Deal.QuoteRounding;
    var c, worth := d.Collateral(), received * d.debtPrice * d.scale * ONE;
    Weighted(d.debtWeight, worth, c * RELIEF, d.QuoteRounding());
    Split(c, d.debtWeight, d.weight);
    Difference(debts, assets, d.Unit());
  }

  lemma Weighted(w: int, worth: int, exact: int, slack: int)
    requires 0 <= w && worth <= exact <= worth + slack
    ensures w * worth <= exact * w <= w * worth + w * slack
  {
    Scale(worth, exact, w);
    Scale(exact, worth + slack, w);
    assert (worth + slack) * w == w * worth + w * slack;
  }

  lemma Split(c: int, w: int, v: int)
    ensures c * (RELIEF * w - ONE * v) == c * RELIEF * w - c * (ONE * v)
  {
    assert c * (RELIEF * w) == c * RELIEF * w;
  }

  lemma Difference(x: int, y: int, u: int)
    ensures (x - y) * u == x * u - y * u
  {
  }

  // ------------------------------------------------- a liquidation that leaves debt

  /** The account has at least a share of collateral: less does not count. */
  predicate HasCollateral(m: Market, a: nat, assetPk: nat) {
    && assetPk in m.pools && a < |m.accounts|
    && var bs := m.accounts[a].balances;
       FindBalance(bs, assetPk).Some? && ONE <= bs[FindBalance(bs, assetPk).value].assetShares
  }

  /** The account will be left with at least one share of the debt. */
  predicate LeavesDebt(m: Market, a: nat, debtPk: nat, received: int) {
    && debtPk in m.pools && a < |m.accounts| && 0 < m.pools[debtPk].bank.liabilityShareValue
    && var bs := m.accounts[a].balances;
       && FindBalance(bs, debtPk).Some?
       && ONE <= bs[FindBalance(bs, debtPk).value].liabilityShares
                 - Truncated(received * ONE, m.pools[debtPk].bank.liabilityShareValue)
  }

  /** Collateral of which less than a share is left was worth about what was asked for. */
  lemma WholeTaken(shares: int, x: int, value: int, delta: int)
    requires 0 < value && IsQuotient(delta, value, x) && shares - x < ONE && delta <= Product(shares, value)
    ensures var taken := Product(shares, value);
            taken <= delta + value && delta * ONE - value - ONE <= taken * ONE
  {
    ProductBounds(shares, value);
    Scale(shares, x + ONE, value);
    assert (x + ONE) * value == x * value + ONE * value;
  }

  /** Shares that leave one behind are for less than the whole. */
  lemma LessThanWhole(shares: int, value: int, delta: int)
    requires 0 <= shares && 0 < value && 0 <= delta && ONE <= shares - Truncated(delta * ONE, value)
    ensures delta <= Product(shares, value) && IsQuotient(delta, value, Truncated(delta * ONE, value))
    ensures 0 <= Truncated(delta * ONE, value)
  {
    hide Truncated, Product;
    var whole := Product(shares, value);
    ProductBounds(shares, value);
    QuotientBounds(delta, value);
    if whole < delta {
      SharesForAmount(shares, value, whole);
      QuotientMonotone(whole, delta, value);
    }
  }

  lemma PartialShares(bank: BankState, b: BalanceState, delta: int)
    requires bank.Healthy() && b.Sound() && 0 <= delta
    requires ONE <= b.liabilityShares - Truncated(delta * ONE, bank.liabilityShareValue)
    ensures RaiseShares(Position(bank, b), delta) == (0, Truncated(delta * ONE, bank.liabilityShareValue))
  {
    hide Truncated, Product;
    Nothing(bank.assetShareValue);
    LessThanWhole(b.liabilityShares, bank.liabilityShareValue, delta);
  }

  lemma Nothing(value: int)
    requires 0 < value
    ensures Truncated(0 * ONE, value) == 0
  {
    DivisionIs(0, value, 0);
  }

  // ------------------------------------------------------------ both together

  /** Exposures of a sound account whose health can be computed can be valued. */
  lemma {:induction false} IsExposed(m: Market, bs: seq<BalanceState>, i: nat, feeds: map<nat, Feed>)
    requires i < |bs| && bs[i].active && bs[i].bankPk in m.pools
    ensures ExposureOf(m, bs[i], feeds)[0] in ExposuresOf(m, bs, feeds)
  {
    if i != 0 {
      IsExposed(m, bs[1..], i - 1, feeds);
    }
  }

  lemma AssetWorth(m: Market, b: BalanceState, feeds: map<nat, Feed>)
    requires b.active && b.Sound() && !b.IsEmpty(Assets) && b.bankPk in m.pools && m.pools[b.bankPk].bank.Healthy()
    requires FeedPrice(feeds, b.bankPk, Low).Ok?
    requires ExposureOf(m, b, feeds)[0].WeightedValues(Maintenance).Ok?
    ensures var bank := m.pools[b.bankPk].bank;
            IsValue(TotalWorth(ExposureOf(m, b, feeds)), Product(b.assetShares, bank.assetShareValue),
                    bank.config.assetWeightMaint, FeedPrice(feeds, b.bankPk, Low).value, Pow10(bank.mintDecimals))
  {
    hide PriceOfType, CalcValue, Product, Pow10;
    var e, bank := ExposureOf(m, b, feeds)[0], m.pools[b.bankPk].bank;
    OneWorth(e);
    BiasedPriceNonNegative(feeds[b.bankPk], RealTime, Low);
    ProductBounds(b.assetShares, bank.assetShareValue);
    var amount, price := Product(b.assetShares, bank.assetShareValue), FeedPrice(feeds, b.bankPk, Low).value;
    if bank.config.riskTier == Isolated {
      NoWeight(amount, price, Pow10(bank.mintDecimals));
      assert e.WeightedValues(Maintenance) == Ok((0, 0));
    } else {
      assert e.WeightedAssets(Maintenance)
          == CalcValue(amount, price, bank.mintDecimals, Some(bank.config.assetWeightMaint));
      ValueBounds(amount, price, bank.mintDecimals, bank.config.assetWeightMaint);
    }
  }

  lemma NoWeight(amount: int, price: int, scale: int)
    requires 0 <= price && 0 < scale
    ensures IsValue(0, amount, 0, price, scale)
  {
    assert amount * 0 * price == 0;
  }

  lemma DebtWorth(m: Market, b: BalanceState, feeds: map<nat, Feed>)
    requires b.active && b.Sound() && !b.IsEmpty(Liabilities) && b.bankPk in m.pools && m.pools[b.bankPk].bank.Healthy()
    requires FeedPrice(feeds, b.bankPk, High).Ok?
    requires ExposureOf(m, b, feeds)[0].WeightedValues(Maintenance).Ok?
    ensures var bank := m.pools[b.bankPk].bank;
            IsValue(-TotalWorth(ExposureOf(m, b, feeds)), Product(b.liabilityShares, bank.liabilityShareValue),
                    bank.config.liabilityWeightMaint, FeedPrice(feeds, b.bankPk, High).value, Pow10(bank.mintDecimals))
  {
    hide PriceOfType, CalcValue, Product, Pow10;
    var e, bank := ExposureOf(m, b, feeds)[0], m.pools[b.bankPk].bank;
    OneWorth(e);
    BiasedPriceNonNegative(feeds[b.bankPk], RealTime, High);
    ProductBounds(b.liabilityShares, bank.liabilityShareValue);
    var amount, price := Product(b.liabilityShares, bank.liabilityShareValue), FeedPrice(feeds, b.bankPk, High).value;
    assert e.WeightedLiabilities(Maintenance)
        == CalcValue(amount, price, bank.mintDecimals, Some(bank.config.liabilityWeightMaint));
    ValueBounds(amount, price, bank.mintDecimals, bank.config.liabilityWeightMaint);
  }

  /** The terms of a liquidation. */
  function DealOf(m: Market, assetPk: nat, debtPk: nat, amount: nat, feeds: map<nat, Feed>): Deal
    requires assetPk in m.pools && debtPk in m.pools
    requires FeedPrice(feeds, assetPk, Low).Ok? && FeedPrice(feeds, debtPk, High).Ok?
  {
    var a, b := m.pools[assetPk].bank, m.pools[debtPk].bank;
    Deal(amount, FeedPrice(feeds, assetPk, Low).value, Pow10(a.mintDecimals), a.assetShareValue,
         a.config.assetWeightMaint, FeedPrice(feeds, debtPk, High).value, Pow10(b.mintDecimals),
         b.liabilityShareValue, b.config.liabilityWeightMaint)
  }

  lemma QuoteOfDeal(m: Market, assetPk: nat, debtPk: nat, amount: nat, feeds: map<nat, Feed>)
    requires Inv(m) && LiquidationAmounts(m, assetPk, debtPk, amount, feeds).Ok?
    ensures assetPk in m.pools && debtPk in m.pools
    ensures FeedPrice(feeds, assetPk, Low).Ok? && FeedPrice(feeds, debtPk, High).Ok?
    ensures var d := DealOf(m, assetPk, debtPk, amount, feeds);
            var worth := LiquidationAmounts(m, assetPk, debtPk, amount, feeds).value.1 * d.debtPrice * d.scale * ONE;
            && d.Valid() && worth <= d.Collateral() * RELIEF
            && d.Collateral() * RELIEF
               <= worth + d.QuoteRounding()
  {
    hide Inv, LiquidationQuote, FeedPrice, Pow10;
    QuotePrices(m, assetPk, debtPk, amount, feeds);
    PoolIsOk(m, assetPk);
    PoolIsOk(m, debtPk);
    var a, b := m.pools[assetPk].bank, m.pools[debtPk].bank;
    var p, q := FeedPrice(feeds, assetPk, Low).value, FeedPrice(feeds, debtPk, High).value;
    QuoteIs(amount, a, p, b, q, RELIEF);
    var s, t := Pow10(a.mintDecimals), Pow10(b.mintDecimals);
    var r := LiquidationAmounts(m, assetPk, debtPk, amount, feeds).value.1;
    Reorder(amount * ONE, RELIEF, p, t);
    Expand(r, q, s, t);
  }

  lemma Expand(r: int, q: int, s: int, t: int)
    ensures ((r + 1) * q + t * ONE) * s * ONE == r * q * s * ONE + (q * s * ONE + t * ONE * s * ONE)
  {
    assert ((r + 1) * q + t * ONE) * s == r * q * s + q * s + t * ONE * s;
  }

  /** The account before and after a liquidation that leaves debt, and all that is known of it. */
  ghost predicate Liquidated(m: Market, m': Market, a: nat, assetPk: nat, debtPk: nat, amount: nat, received: int,
                             feeds: map<nat, Feed>)
  {
    && Inv(m) && Inv(m') && AllSameTerms(m, m') && 0 <= received
    && HasCollateral(m, a, assetPk) && LeavesDebt(m, a, debtPk, received)
    && m.pools[assetPk].bank.Healthy() && m.pools[debtPk].bank.Healthy()
    && Swapped(m, m', a, FindBalance(m.accounts[a].balances, assetPk).value,
               FindBalance(m.accounts[a].balances, debtPk).value, assetPk, debtPk, amount, received)
    && HealthComponents(Exposures(m, a, feeds), Maintenance).Ok?
    && HealthComponents(Exposures(m', a, feeds), Maintenance).Ok?
    && FeedPrice(feeds, assetPk, Low).Ok? && FeedPrice(feeds, debtPk, High).Ok?
  }

  /** A balance of an account whose health can be computed can be valued. */
  lemma CanBeValued(m: Market, a: nat, i: nat, feeds: map<nat, Feed>)
    requires Inv(m) && a < |m.accounts| && i < |m.accounts[a].balances|
    requires m.accounts[a].balances[i].active && m.accounts[a].balances[i].bankPk in m.pools
    requires HealthComponents(Exposures(m, a, feeds), Maintenance).Ok?
    ensures ExposureOf(m, m.accounts[a].balances[i], feeds)[0].WeightedValues(Maintenance).Ok?
    ensures m.accounts[a].balances[i].Sound() && m.pools[m.accounts[a].balances[i].bankPk].bank.Healthy()
  {
    hide Inv, Exposure.WeightedValues, HealthComponents, ExposureOf;
    HealthIsWorth(Exposures(m, a, feeds));
    IsExposed(m, m.accounts[a].balances, i, feeds);
    AccountIsDistinct(m, a);
    PoolIsOk(m, m.accounts[a].balances[i].bankPk);
  }

  lemma CollateralEffect(m: Market, m': Market, a: nat, assetPk: nat, debtPk: nat, amount: nat, received: int,
                         feeds: map<nat, Feed>)
    requires Liquidated(m, m', a, assetPk, debtPk, amount, received, feeds)
    requires DealOf(m, assetPk, debtPk, amount, feeds).Valid()
    ensures var d := DealOf(m, assetPk, debtPk, amount, feeds);
            var i := FindBalance(m.accounts[a].balances, assetPk).value;
            var v := TotalWorth(ExposureOf(m, m.accounts[a].balances[i], feeds))
                     - TotalWorth(ExposureOf(m', m'.accounts[a].balances[i], feeds));
            && v * d.Unit() <= d.Collateral() * (ONE * d.weight) + d.AssetRounding() + d.Dust()
            && d.Collateral() * (ONE * d.weight) - d.Slip() * d.weight * d.price * d.debtScale
               - d.AssetRounding() <= v * d.Unit()
  {
    hide Inv, TotalWorth, ExposureOf, FindBalance, LowerShares, RaiseShares, HealthComponents, Exposures, FeedPrice,
         Exposure.WeightedValues, Product, Truncated, Pow10, Deal.Unit, Deal.Collateral, Deal.AssetRounding, Deal.Dust;
    var (bs, bs') := (m.accounts[a].balances, m'.accounts[a].balances);
    var i := FindBalance(bs, assetPk).value;
    FoundIs(bs, assetPk);
    var bank := m.pools[assetPk].bank;
    CanBeValued(m, a, i, feeds);
    CanBeValued(m', a, i, feeds);
    assert SameTerms(bank, m'.pools[assetPk].bank);
    AssetWorth(m, bs[i], feeds);
    var a0 := Product(bs[i].assetShares, bank.assetShareValue);
    LeftOfCollateral(bank, bs[i], bs'[i], amount);
    AssetWorthLeft(m', bs'[i], feeds);
    var v0, v1 := TotalWorth(ExposureOf(m, bs[i], feeds)), TotalWorth(ExposureOf(m', bs'[i], feeds));
    var d := DealOf(m, assetPk, debtPk, amount, feeds);
    var a1 := if bs'[i].IsEmpty(Assets) then 0 else Product(bs'[i].assetShares, bank.assetShareValue);
    ValueTaken(v0, v1, a0, a1, d.weight, d.price, d.scale);
    CollateralTaken(d, a0 - a1, v0 - v1);
  }

  /** What a withdrawal of `amount` tokens leaves of a deposit, if it counts. */
  lemma LeftOfCollateral(bank: BankState, b: BalanceState, b': BalanceState, amount: nat)
    requires bank.Healthy() && b.Sound() && ONE <= b.assetShares
    requires amount * ONE < Product(b.assetShares, bank.assetShareValue) + ZERO_AMOUNT_THRESHOLD
    requires var (x, y) := LowerShares(Position(bank, b), amount * ONE); Reshaped(b, b', -x, y)
    ensures b'.IsEmpty(Liabilities)
    ensures var a0 := Product(b.assetShares, bank.assetShareValue);
            var a1 := if b'.IsEmpty(Assets) then 0 else Product(b'.assetShares, bank.assetShareValue);
            && a0 - a1 <= amount * ONE + bank.assetShareValue
            && amount * ONE * ONE - (bank.assetShareValue + ONE + ZERO_AMOUNT_THRESHOLD * ONE) <= (a0 - a1) * ONE
  {
    hide Truncated, Product;
    var held := Product(b.assetShares, bank.assetShareValue);
    ProductBounds(b.assetShares, bank.assetShareValue);
    Nothing(bank.liabilityShareValue);
    if amount * ONE <= held {
      var x := Truncated(amount * ONE * ONE, bank.assetShareValue);
      QuotientBounds(amount * ONE, bank.assetShareValue);
      if b'.IsEmpty(Assets) {
        WholeTaken(b.assetShares, x, bank.assetShareValue, amount * ONE);
      } else {
        AmountTaken(b.assetShares, x, bank.assetShareValue, amount * ONE);
      }
    } else {
      SharesForAmount(b.assetShares, bank.assetShareValue, held);
      DustBorrowed(amount * ONE - held, bank.liabilityShareValue);
    }
  }

  lemma DustBorrowed(amount: int, value: int)
    requires 0 <= amount < ZERO_AMOUNT_THRESHOLD && ONE <= value
    ensures 0 <= Truncated(amount * ONE, value) <= ZERO_AMOUNT_THRESHOLD
  {
    var y := Truncated(amount * ONE, value);
    QuotientBounds(amount, value);
    if ZERO_AMOUNT_THRESHOLD < y {
      Scale(ONE, value, y);
    }
  }

  /** What is left of collateral counts, unless it is less than a share. */
  lemma AssetWorthLeft(m: Market, b: BalanceState, feeds: map<nat, Feed>)
    requires b.active && b.Sound() && b.IsEmpty(Liabilities) && b.bankPk in m.pools && m.pools[b.bankPk].bank.Healthy()
    requires FeedPrice(feeds, b.bankPk, Low).Ok?
    requires ExposureOf(m, b, feeds)[0].WeightedValues(Maintenance).Ok?
    ensures var bank := m.pools[b.bankPk].bank;
            IsValue(TotalWorth(ExposureOf(m, b, feeds)),
                    if b.IsEmpty(Assets) then 0 else Product(b.assetShares, bank.assetShareValue),
                    bank.config.assetWeightMaint, FeedPrice(feeds, b.bankPk, Low).value, Pow10(bank.mintDecimals))
  {
    hide PriceOfType, Product, Pow10;
    if b.IsEmpty(Assets) {
      OneWorth(ExposureOf(m, b, feeds)[0]);
      BiasedPriceNonNegative(feeds[b.bankPk], RealTime, Low);
      var bank := m.pools[b.bankPk].bank;
      NoAmount(bank.config.assetWeightMaint, FeedPrice(feeds, b.bankPk, Low).value, Pow10(bank.mintDecimals));
    } else {
      AssetWorth(m, b, feeds);
    }
  }

  lemma NoAmount(weight: int, price: int, scale: int)
    requires 0 <= price && 0 < scale
    ensures IsValue(0, 0, weight, price, scale)
  {
    assert 0 * weight * price == 0;
  }

  lemma DebtEffect(m: Market, m': Market, a: nat, assetPk: nat, debtPk: nat, amount: nat, received: int,
                   feeds: map<nat, Feed>)
    requires Liquidated(m, m', a, assetPk, debtPk, amount, received, feeds)
    requires DealOf(m, assetPk, debtPk, amount, feeds).Valid()
    ensures var d := DealOf(m, assetPk, debtPk, amount, feeds);
            var j := FindBalance(m.accounts[a].balances, debtPk).value;
            var v := TotalWorth(ExposureOf(m', m'.accounts[a].balances[j], feeds))
                     - TotalWorth(ExposureOf(m, m.accounts[a].balances[j], feeds));
            var worth := received * d.debtPrice * d.scale * ONE;
            && v * d.Unit() <= d.debtWeight * worth + d.DebtRounding()
            && d.debtWeight * worth - (d.debtShareValue + ONE) * d.debtWeight * d.debtPrice * d.scale - d.DebtRounding()
               <= v * d.Unit()
  {
    hide Inv, TotalWorth, ExposureOf, FindBalance, LowerShares, RaiseShares, HealthComponents, Exposures, FeedPrice,
         Exposure.WeightedValues, Product, Truncated, Pow10, Deal.Unit, Deal.Collateral, Deal.DebtRounding;
    var (bs, bs') := (m.accounts[a].balances, m'.accounts[a].balances);
    var j := FindBalance(bs, debtPk).value;
    FoundIs(bs, debtPk);
    var bank, x := m.pools[debtPk].bank, Truncated(received * ONE, m.pools[debtPk].bank.liabilityShareValue);
    CanBeValued(m, a, j, feeds);
    CanBeValued(m', a, j, feeds);
    PartialShares(bank, bs[j], received);
    LessThanWhole(bs[j].liabilityShares, bank.liabilityShareValue, received);
    assert SameTerms(bank, m'.pools[debtPk].bank);
    DebtWorth(m, bs[j], feeds);
    DebtWorth(m', bs'[j], feeds);
    var v0, v1 := -TotalWorth(ExposureOf(m, bs[j], feeds)), -TotalWorth(ExposureOf(m', bs'[j], feeds));
    var d := DealOf(m, assetPk, debtPk, amount, feeds);
    var a0, a1 := Product(bs[j].liabilityShares, bank.liabilityShareValue),
                  Product(bs[j].liabilityShares - x, bank.liabilityShareValue);
    ValueTaken(v0, v1, a0, a1, d.debtWeight, d.debtPrice, d.debtScale);
    AmountTaken(bs[j].liabilityShares, x, bank.liabilityShareValue, received);
    DebtTaken(d, received, a0 - a1, v0 - v1);
  }

  lemma WorthAfter(m: Market, m': Market, a: nat, assetPk: nat, debtPk: nat, amount: nat, received: int,
                   feeds: map<nat, Feed>)
    requires Liquidated(m, m', a, assetPk, debtPk, amount, received, feeds)
    ensures var (bs, bs') := (m.accounts[a].balances, m'.accounts[a].balances);
            var (i, j) := (FindBalance(bs, assetPk).value, FindBalance(bs, debtPk).value);
            TotalWorth(Exposures(m', a, feeds)) - TotalWorth(Exposures(m, a, feeds))
            == (TotalWorth(ExposureOf(m', bs'[j], feeds)) - TotalWorth(ExposureOf(m, bs[j], feeds)))
               - (TotalWorth(ExposureOf(m, bs[i], feeds)) - TotalWorth(ExposureOf(m', bs'[i], feeds)))
  {
    hide Inv, TotalWorth, ExposureOf, ExposuresOf, FindBalance, LowerShares, RaiseShares, HealthComponents, FeedPrice,
         BalancesWorth, HasCollateral, LeavesDebt, AllSameTerms;
    var (bs, bs') := (m.accounts[a].balances, m'.accounts[a].balances);
    var (i, j) := (FindBalance(bs, assetPk).value, FindBalance(bs, debtPk).value);
    ExposuresWorth(m, bs, feeds);
    ExposuresWorth(m', bs', feeds);
    BalancesWorthOnTerms(m, m', bs', feeds);
    BalancesWorthUpdate(m, bs, i, bs'[i], feeds);
    BalancesWorthUpdate(m, bs[i := bs'[i]], j, bs'[j], feeds);
    assert bs[i := bs'[i]][j] == bs[j];
    ExposureOnTerms(m, m', bs'[i], feeds);
    ExposureOnTerms(m, m', bs'[j], feeds);
  }

  /** A liquidation changes the maintenance health of the account by 95% of the debt's
      weight less the collateral's weight, times the collateral's worth, up to the
      stated rounding. */
  lemma LiquidationMovesHealth(m: Market, liquidator: nat, liquidatee: nat, assetPk: nat, debtPk: nat, amount: nat,
                               feeds: map<nat, Feed>, now: nat)
    requires Inv(m) && assetPk != debtPk && liquidator != liquidatee
    requires LiquidationAmounts(m, assetPk, debtPk, amount, feeds).Ok?
    requires var (paid, received) := LiquidationAmounts(m, assetPk, debtPk, amount, feeds).value;
             && HasCollateral(m, liquidatee, assetPk) && LeavesDebt(m, liquidatee, debtPk, received)
             && SwapPositions(m, liquidator, liquidatee, assetPk, debtPk, amount, paid, received, now).Ok?
             && var m' := SwapPositions(m, liquidator, liquidatee, assetPk, debtPk, amount, paid, received, now).value;
                && MaintenanceHealth(Exposures(m, liquidatee, feeds)).Ok?
                && MaintenanceHealth(Exposures(m', liquidatee, feeds)).Ok?
    ensures FeedPrice(feeds, assetPk, Low).Ok? && FeedPrice(feeds, debtPk, High).Ok?
    ensures var (paid, received) := LiquidationAmounts(m, assetPk, debtPk, amount, feeds).value;
            var m' := SwapPositions(m, liquidator, liquidatee, assetPk, debtPk, amount, paid, received, now).value;
            var d := DealOf(m, assetPk, debtPk, amount, feeds);
            var change := MaintenanceHealth(Exposures(m', liquidatee, feeds)).value
                          - MaintenanceHealth(Exposures(m, liquidatee, feeds)).value;
            d.Change() - d.Below() <= change * d.Unit() <= d.Change() + d.Above()
  {
    hide Inv, LiquidationAmounts, SwapPositions, HealthComponents, Exposures, FeedPrice, Swapped, FindBalance, Truncated,
         TotalWorth, ExposureOf, AllSameTerms, Pow10, Deal.Unit, Deal.Change, Deal.Above, Deal.Below, Deal.Collateral,
         Deal.AssetRounding, Deal.DebtRounding, Drifts;
    var (paid, received) := LiquidationAmounts(m, assetPk, debtPk, amount, feeds).value;
    LiquidationAmountsOrdered(m, assetPk, debtPk, amount, feeds);
    QuoteOfDeal(m, assetPk, debtPk, amount, feeds);
    var m' := SwapPositions(m, liquidator, liquidatee, assetPk, debtPk, amount, paid, received, now).value;
    var bs := m.accounts[liquidatee].balances;
    SwapIs(m, liquidator, liquidatee, assetPk, debtPk, amount, paid, received, now, FindBalance(bs, debtPk).value);
    SwapPositionsEffect(m, liquidator, liquidatee, assetPk, debtPk, amount, paid, received, now);
    var (i, j) := (FindBalance(bs, assetPk).value, FindBalance(bs, debtPk).value);
    var d := DealOf(m, assetPk, debtPk, amount, feeds);
    CollateralEffect(m, m', liquidatee, assetPk, debtPk, amount, received, feeds);
    DebtEffect(m, m', liquidatee, assetPk, debtPk, amount, received, feeds);
    WorthAfter(m, m', liquidatee, assetPk, debtPk, amount, received, feeds);
    HealthIsWorth(Exposures(m, liquidatee, feeds));
    HealthIsWorth(Exposures(m', liquidatee, feeds));
    SwappedInside(m, m', liquidatee, i, j, assetPk, debtPk, amount, received);
    var bs' := m'.accounts[liquidatee].balances;
    HealthChange(d, received,
                 TotalWorth(ExposureOf(m, bs[i], feeds)) - TotalWorth(ExposureOf(m', bs'[i], feeds)),
                 TotalWorth(ExposureOf(m', bs'[j], feeds)) - TotalWorth(ExposureOf(m, bs[j], feeds)));
  }

  lemma SwappedInside(m: Market, m': Market, a: nat, i: nat, j: nat, assetPk: nat, debtPk: nat, amount: nat,
                      received: int)
    requires assetPk in m.pools && debtPk in m.pools
    requires m.pools[assetPk].bank.Healthy() && m.pools[debtPk].bank.Healthy()
    requires Swapped(m, m', a, i, j, assetPk, debtPk, amount, received)
    ensures a < |m.accounts| && a < |m'.accounts| && i < |m.accounts[a].balances| && j < |m.accounts[a].balances|
    ensures i < |m'.accounts[a].balances| && j < |m'.accounts[a].balances|
  {
    hide LowerShares, RaiseShares;
  }

  // ------------------------------------------- when the program refuses it

  lemma {:induction false} FindExposureOf(m: Market, bs: seq<BalanceState>, feeds: map<nat, Feed>, pk: nat, j: nat)
    requires j < |bs| && bs[j].active && bs[j].bankPk == pk && pk in m.pools && Distinct(bs)
    ensures FindExposure(ExposuresOf(m, bs, feeds), pk) == Some(ExposureOf(m, bs[j], feeds)[0])
  {
    var rest := ExposuresOf(m, bs[1..], feeds);
    if j == 0 {
      assert ExposuresOf(m, bs, feeds)[0] == ExposureOf(m, bs[0], feeds)[0];
    } else {
      FindExposureOf(m, bs[1..], feeds, pk, j - 1);
      if bs[0].active && bs[0].bankPk in m.pools {
        assert bs[0].bankPk != bs[j].bankPk;
        assert ExposuresOf(m, bs, feeds)[1..] == rest;
      } else {
        assert ExposuresOf(m, bs, feeds) == rest;
      }
    }
  }

  /** What is left of the debt is still a debt. */
  lemma DebtRemains(m: Market, m': Market, a: nat, assetPk: nat, debtPk: nat, amount: nat, received: int,
                    feeds: map<nat, Feed>)
    requires Liquidated(m, m', a, assetPk, debtPk, amount, received, feeds)
    ensures var e := FindExposure(Exposures(m', a, feeds), debtPk);
            e.Some? && !e.value.balance.IsEmpty(Liabilities) && e.value.balance.IsEmpty(Assets)
  {
    hide Inv, FindBalance, LowerShares, RaiseShares, HealthComponents, FeedPrice, Truncated, FindExposure,
         Exposure.WeightedValues;
    var (bs, bs') := (m.accounts[a].balances, m'.accounts[a].balances);
    var j := FindBalance(bs, debtPk).value;
    FoundIs(bs, debtPk);
    AccountIsDistinct(m, a);
    AccountIsDistinct(m', a);
    PartialShares(m.pools[debtPk].bank, bs[j], received);
    FindExposureOf(m', bs', feeds, debtPk, j);
  }

  /** When 95% of the debt's weight exceeds the collateral's weight by more than rounding,
      a liquidation improves health, and only one that makes the account healthy
      fails the check that follows it. */
  lemma ImprovesByWeights(m: Market, liquidator: nat, liquidatee: nat, assetPk: nat, debtPk: nat, amount: nat,
                          feeds: map<nat, Feed>, now: nat)
    requires Inv(m) && assetPk != debtPk && liquidator != liquidatee
    requires LiquidationAmounts(m, assetPk, debtPk, amount, feeds).Ok?
    requires var (paid, received) := LiquidationAmounts(m, assetPk, debtPk, amount, feeds).value;
             && HasCollateral(m, liquidatee, assetPk) && LeavesDebt(m, liquidatee, debtPk, received)
             && SwapPositions(m, liquidator, liquidatee, assetPk, debtPk, amount, paid, received, now).Ok?
             && var m' := SwapPositions(m, liquidator, liquidatee, assetPk, debtPk, amount, paid, received, now).value;
                && MaintenanceHealth(Exposures(m, liquidatee, feeds)).Ok?
                && MaintenanceHealth(Exposures(m', liquidatee, feeds)).Ok?
    requires FeedPrice(feeds, assetPk, Low).Ok? && FeedPrice(feeds, debtPk, High).Ok?
    requires var d := DealOf(m, assetPk, debtPk, amount, feeds); d.Below() < d.Change()
    ensures var (paid, received) := LiquidationAmounts(m, assetPk, debtPk, amount, feeds).value;
            var m' := SwapPositions(m, liquidator, liquidatee, assetPk, debtPk, amount, paid, received, now).value;
            var (before, after) := (MaintenanceHealth(Exposures(m, liquidatee, feeds)).value,
                                    MaintenanceHealth(Exposures(m', liquidatee, feeds)).value);
            && before < after
            && (CheckPostLiquidation(false, Exposures(m', liquidatee, feeds), debtPk, before).Ok? <==> after <= 0)
  {
    hide Inv, LiquidationAmounts, SwapPositions, HealthComponents, Exposures, FeedPrice, Swapped, FindBalance, Truncated,
         FindExposure, AllSameTerms, Pow10, Deal.Change, Deal.Above, Deal.Below, Deal.Unit, Drifts;
    var (paid, received) := LiquidationAmounts(m, assetPk, debtPk, amount, feeds).value;
    var m' := SwapPositions(m, liquidator, liquidatee, assetPk, debtPk, amount, paid, received, now).value;
    LiquidationMovesHealth(m, liquidator, liquidatee, assetPk, debtPk, amount, feeds, now);
    LiquidationAmountsOrdered(m, assetPk, debtPk, amount, feeds);
    QuoteOfDeal(m, assetPk, debtPk, amount, feeds);
    var bs := m.accounts[liquidatee].balances;
    SwapIs(m, liquidator, liquidatee, assetPk, debtPk, amount, paid, received, now, FindBalance(bs, debtPk).value);
    SwapPositionsEffect(m, liquidator, liquidatee, assetPk, debtPk, amount, paid, received, now);
    DebtRemains(m, m', liquidatee, assetPk, debtPk, amount, received, feeds);
    var d := DealOf(m, assetPk, debtPk, amount, feeds);
    UnitPositive(d);
    var change := MaintenanceHealth(Exposures(m', liquidatee, feeds)).value
                  - MaintenanceHealth(Exposures(m, liquidatee, feeds)).value;
    if change <= 0 {
      Scale(change, 0, d.Unit());
    }
  }

  lemma UnitPositive(d: Deal)
    requires d.Valid()
    ensures 0 < d.Unit()
  {
    Scale(1, d.scale, d.debtScale);
  }

  /** If less than a share of the debt is left, the check after the swap fails. */
  lemma DebtGone(m: Market, m': Market, a: nat, i: nat, j: nat, assetPk: nat, debtPk: nat, amount: nat, received: int,
                 feeds: map<nat, Feed>, before: int)
    requires Inv(m) && Inv(m') && AllSameTerms(m, m') && 0 <= received && assetPk in m.pools && debtPk in m.pools
    requires m.pools[assetPk].bank.Healthy() && m.pools[debtPk].bank.Healthy()
    requires Swapped(m, m', a, i, j, assetPk, debtPk, amount, received) && !LeavesDebt(m, a, debtPk, received)
    ensures CheckPostLiquidation(false, Exposures(m', a, feeds), debtPk, before).Err?
  {
    hide Inv, FindBalance, LowerShares, RaiseShares, Truncated, FindExposure, MaintenanceHealth, Product;
    var (bs, bs') := (m.accounts[a].balances, m'.accounts[a].balances);
    FoundIs(bs, debtPk);
    AccountIsDistinct(m, a);
    AccountIsDistinct(m', a);
    NoneLeft(m.pools[debtPk].bank, bs[j], received);
    FindExposureOf(m', bs', feeds, debtPk, j);
  }

  lemma NoneLeft(bank: BankState, b: BalanceState, received: int)
    requires bank.Healthy() && b.Sound() && 0 <= received
    requires b.liabilityShares - Truncated(received * ONE, bank.liabilityShareValue) < ONE
    ensures b.liabilityShares - RaiseShares(Position(bank, b), received).1 < ONE
  {
    hide Truncated, Product;
    RaiseRounding(Position(bank, b), received);
  }

  /** When it falls short by more than rounding, the swap does not improve health, and the
      check that follows it fails. */
  lemma FallsByWeights(m: Market, liquidator: nat, liquidatee: nat, assetPk: nat, debtPk: nat, amount: nat,
                       feeds: map<nat, Feed>, now: nat)
    requires Inv(m) && assetPk != debtPk && liquidator != liquidatee && HasCollateral(m, liquidatee, assetPk)
    requires FindBalance(m.accounts[liquidatee].balances, debtPk).Some?
    requires LiquidationAmounts(m, assetPk, debtPk, amount, feeds).Ok?
    requires var (paid, received) := LiquidationAmounts(m, assetPk, debtPk, amount, feeds).value;
             SwapPositions(m, liquidator, liquidatee, assetPk, debtPk, amount, paid, received, now).Ok?
    requires MaintenanceHealth(Exposures(m, liquidatee, feeds)).Ok?
    requires FeedPrice(feeds, assetPk, Low).Ok? && FeedPrice(feeds, debtPk, High).Ok? && debtPk in m.pools
    requires var d := DealOf(m, assetPk, debtPk, amount, feeds); d.Change() + d.Above() < 0
    ensures var (paid, received) := LiquidationAmounts(m, assetPk, debtPk, amount, feeds).value;
            var m' := SwapPositions(m, liquidator, liquidatee, assetPk, debtPk, amount, paid, received, now).value;
            var (before, after) := (MaintenanceHealth(Exposures(m, liquidatee, feeds)),
                                    MaintenanceHealth(Exposures(m', liquidatee, feeds)));
            && (LeavesDebt(m, liquidatee, debtPk, received) && after.Ok? ==> after.value < before.value)
            && CheckPostLiquidation(false, Exposures(m', liquidatee, feeds), debtPk, before.value).Err?
  {
    hide Inv, LiquidationAmounts, SwapPositions, HealthComponents, Exposures, FeedPrice, Swapped, FindBalance, Truncated,
         FindExposure, AllSameTerms, Pow10, LeavesDebt, Deal.Change, Deal.Above, Deal.Below, Deal.Unit, Drifts;
    var (paid, received) := LiquidationAmounts(m, assetPk, debtPk, amount, feeds).value;
    var m' := SwapPositions(m, liquidator, liquidatee, assetPk, debtPk, amount, paid, received, now).value;
    LiquidationAmountsOrdered(m, assetPk, debtPk, amount, feeds);
    var bs := m.accounts[liquidatee].balances;
    SwapIs(m, liquidator, liquidatee, assetPk, debtPk, amount, paid, received, now, FindBalance(bs, debtPk).value);
    SwapPositionsEffect(m, liquidator, liquidatee, assetPk, debtPk, amount, paid, received, now);
    var (before, after) := (MaintenanceHealth(Exposures(m, liquidatee, feeds)),
                            MaintenanceHealth(Exposures(m', liquidatee, feeds)));
    if !LeavesDebt(m, liquidatee, debtPk, received) {
      DebtGone(m, m', liquidatee, FindBalance(bs, assetPk).value, FindBalance(bs, debtPk).value, assetPk, debtPk, amount,
               received, feeds, before.value);
    } else if after.Ok? {
      LiquidationMovesHealth(m, liquidator, liquidatee, assetPk, debtPk, amount, feeds, now);
      QuoteOfDeal(m, assetPk, debtPk, amount, feeds);
      var d := DealOf(m, assetPk, debtPk, amount, feeds);
      UnitPositive(d);
      if before.value <= after.value {
        Scale(0, after.value - before.value, d.Unit());
      }
    }
  }

  lemma {:induction false} ExposureIsHeld(m: Market, bs: seq<BalanceState>, feeds: map<nat, Feed>, pk: nat)
    requires FindExposure(ExposuresOf(m, bs, feeds), pk).Some?
    ensures exists i :: 0 <= i < |bs| && bs[i].active && bs[i].bankPk == pk
  {
    if bs != [] {
      var es, rest := ExposuresOf(m, bs, feeds), ExposuresOf(m, bs[1..], feeds);
      if bs[0].active && bs[0].bankPk in m.pools {
        assert es[1..] == rest && es[0].balance == bs[0];
      } else {
        assert es == rest;
      }
      if !(bs[0].active && bs[0].bankPk == pk) {
        ExposureIsHeld(m, bs[1..], feeds, pk);
        var i :| 0 <= i < |bs[1..]| && bs[1..][i].active && bs[1..][i].bankPk == pk;
        assert bs[i + 1].active && bs[i + 1].bankPk == pk;
      }
    }
  }

  lemma PreCheckFindsDebt(m: Market, a: nat, debtPk: nat, feeds: map<nat, Feed>)
    requires CheckPreLiquidation(false, Exposures(m, a, feeds), debtPk).Ok?
    ensures a < |m.accounts| && FindBalance(m.accounts[a].balances, debtPk).Some?
    ensures MaintenanceHealth(Exposures(m, a, feeds)) == CheckPreLiquidation(false, Exposures(m, a, feeds), debtPk)
  {
    hide MaintenanceHealth;
    if a < |m.accounts| {
      ExposureIsHeld(m, m.accounts[a].balances, feeds, debtPk);
    }
  }

  /** If the account may be liquidated and the swap succeeds, the check that follows it fails,
      and where debt is left health has fallen. */
  predicate OnlyWorsens(m: Market, liquidator: nat, liquidatee: nat, assetPk: nat, debtPk: nat, amount: nat,
                        feeds: map<nat, Feed>, now: nat)
  {
    var before, amounts := CheckPreLiquidation(false, Exposures(m, liquidatee, feeds), debtPk),
                           LiquidationAmounts(m, assetPk, debtPk, amount, feeds);
    before.Ok? && amounts.Ok? ==>
      var (paid, received) := amounts.value;
      var swap := SwapPositions(m, liquidator, liquidatee, assetPk, debtPk, amount, paid, received, now);
      swap.Ok? ==>
        var after := MaintenanceHealth(Exposures(swap.value, liquidatee, feeds));
        && CheckPostLiquidation(false, Exposures(swap.value, liquidatee, feeds), debtPk, before.value).Err?
        && (LeavesDebt(m, liquidatee, debtPk, received) && after.Ok? ==> after.value < before.value)
  }

  lemma WorsensByWeights(m: Market, liquidator: nat, liquidatee: nat, assetPk: nat, debtPk: nat, amount: nat,
                         feeds: map<nat, Feed>, now: nat)
    requires Inv(m) && assetPk != debtPk && liquidator != liquidatee
    requires HasCollateral(m, liquidatee, assetPk) && debtPk in m.pools
    requires FeedPrice(feeds, assetPk, Low).Ok? && FeedPrice(feeds, debtPk, High).Ok?
    requires var d := DealOf(m, assetPk, debtPk, amount, feeds); d.Change() + d.Above() < 0
    ensures OnlyWorsens(m, liquidator, liquidatee, assetPk, debtPk, amount, feeds, now)
  {
    hide Inv, LiquidationAmounts, SwapPositions, Exposures, CheckPreLiquidation, CheckPostLiquidation, FeedPrice,
         HasCollateral, LeavesDebt, MaintenanceHealth, Deal.Change, Deal.Above, FindBalance;
    var before, amounts := CheckPreLiquidation(false, Exposures(m, liquidatee, feeds), debtPk),
                           LiquidationAmounts(m, assetPk, debtPk, amount, feeds);
    if before.Ok? && amounts.Ok? {
      PreCheckFindsDebt(m, liquidatee, debtPk, feeds);
      var (paid, received) := amounts.value;
      if SwapPositions(m, liquidator, liquidatee, assetPk, debtPk, amount, paid, received, now).Ok? {
        FallsByWeights(m, liquidator, liquidatee, assetPk, debtPk, amount, feeds, now);
      }
    }
  }

  /** So the program refuses the liquidation, whoever asks for it. */
  lemma RefusedByWeights(m: Market, liquidator: nat, liquidatee: nat, assetPk: nat, debtPk: nat, amount: nat,
                         feeds: map<nat, Feed>, now: nat)
    requires Inv(m) && AccrueBoth(m, assetPk, debtPk, now).Ok? && assetPk != debtPk && liquidator != liquidatee
    requires var m1 := AccrueBoth(m, assetPk, debtPk, now).value;
             && HasCollateral(m1, liquidatee, assetPk) && debtPk in m1.pools
             && FeedPrice(feeds, assetPk, Low).Ok? && FeedPrice(feeds, debtPk, High).Ok?
             && var d := DealOf(m1, assetPk, debtPk, amount, feeds); d.Change() + d.Above() < 0
    ensures OnlyWorsens(AccrueBoth(m, assetPk, debtPk, now).value, liquidator, liquidatee, assetPk, debtPk, amount, feeds,
                        now)
    ensures Liquidate(m, liquidator, liquidatee, assetPk, debtPk, amount, feeds, now).Err?
  {
    hide Inv, AccrueBoth, LiquidationAmounts, SwapPositions, Exposures, InFlashloan, IfHealthy, CheckPreLiquidation,
         CheckPostLiquidation, FeedPrice, HasCollateral, LeavesDebt, MaintenanceHealth, Deal.Change, Deal.Above, Drifts;
    AccrueBothEffect(m, assetPk, debtPk, now);
    var m1 := AccrueBoth(m, assetPk, debtPk, now).value;
    WorsensByWeights(m1, liquidator, liquidatee, assetPk, debtPk, amount, feeds, now);
  }

  // ------------------------------------------------- a valid configuration

  /** 95% of the debt's weight is at least one percent short of the collateral's. */
  predicate TooClose(weight: int, debtWeight: int) {
    weight <= 2 * ONE && RELIEF * debtWeight + ONE * (ONE / 100) <= ONE * weight
  }

  /** Validation accepts weights that are too close, such as 99% for collateral and 101% for
      debt: a haircut on one side and a markup on the other are not enough. */
  lemma TooCloseIsValid(rates: RateConfig, state: OperationalState)
    requires rates.Valid()
    ensures var (w, v) := (ONE / 100 * 99, ONE / 100 * 101 + 101);
            && BankConfig(w, w, v, v, U64_MAX, U64_MAX, rates, state, Collateral, 0).Validate().Ok?
            && w < ONE < v && TooClose(w, v) && TooClose(ONE, ONE)
  {
  }

  /** With weights too close, every amount of collateral at prices, decimals and share
      values in everyday ranges loses health by more than rounding. */
  lemma TooCloseLoses(d: Deal)
    requires d.Valid() && TooClose(d.weight, d.debtWeight) && 0 < d.amount
    requires ONE <= d.price && d.debtPrice <= 1024 * ONE && d.scale <= 1_000_000_000 && d.shareValue <= 65536 * ONE
    ensures d.Change() + d.Above() < 0
  {
    hide Deal.Change, Deal.Above;
    var p := d.price * d.debtScale;
    Scale(ONE, d.price, d.debtScale);
    Loses(d, p);
    Gains(d, p);
    Scale(1, p, ONE * ONE * (ONE / 100 - 1_200_000_000_000));
  }

  lemma Loses(d: Deal, p: int)
    requires TooClose(d.weight, d.debtWeight) && 0 < d.amount && p == d.price * d.debtScale && 0 <= p
    ensures d.Change() <= -(p * (ONE * ONE * (ONE / 100)))
  {
    var c, w := d.Collateral(), ONE * (ONE / 100);
    Scale(1, d.amount, p);
    assert c == d.amount * p * ONE;
    Scale(RELIEF * d.debtWeight - ONE * d.weight, -w, c);
    Scale(p, d.amount * p, ONE * w);
    assert -w * c == -(d.amount * p * (ONE * w));
  }

  lemma Gains(d: Deal, p: int)
    requires d.Valid() && d.weight <= 2 * ONE && p == d.price * d.debtScale && ONE * d.debtScale <= p
    requires d.debtPrice <= 1024 * ONE && d.scale <= 1_000_000_000 && d.shareValue <= 65536 * ONE
    ensures d.Above() <= p * (ONE * ONE * 1_200_000_000_000)
  {
    hide Deal.AssetRounding, Deal.DebtRounding;
    var s, t := d.scale, d.debtScale;
    var slip := (65537 + ZERO_AMOUNT_THRESHOLD) * ONE;
    Scale(d.Slip(), slip, d.weight);
    Scale(d.weight, 2 * ONE, slip);
    Scale(d.Slip() * d.weight, slip * (2 * ONE), p);
    assert d.Slip() * d.weight * d.price * t == d.Slip() * d.weight * p;
    Scale(s, 1_000_000_000, t);
    Scale(d.debtPrice, 1024 * ONE, s);
    RoundingsAre(d, p);
  }

  lemma RoundingsAre(d: Deal, p: int)
    requires p == d.price * d.debtScale
    ensures d.AssetRounding() == d.scale * d.debtScale * (ONE * ONE * ONE) + p * (ONE * ONE) + d.debtScale * ONE
    ensures d.DebtRounding()
            == d.scale * d.debtScale * (ONE * ONE * ONE) + d.debtPrice * d.scale * (ONE * ONE) + d.scale * ONE
  {
  }

  /** So at a valid configuration liquidating only makes things worse, and is not accepted,
      whatever the state of the market. */
  lemma TooCloseIsRefused(m: Market, liquidator: nat, liquidatee: nat, assetPk: nat, debtPk: nat, amount: nat,
                          feeds: map<nat, Feed>, now: nat)
    requires Inv(m) && AccrueBoth(m, assetPk, debtPk, now).Ok?
    requires 0 < amount && assetPk != debtPk && liquidator != liquidatee
    requires var m1 := AccrueBoth(m, assetPk, debtPk, now).value;
             && HasCollateral(m1, liquidatee, assetPk) && debtPk in m1.pools
             && FeedPrice(feeds, assetPk, Low).Ok? && FeedPrice(feeds, debtPk, High).Ok?
             && TooClose(m1.pools[assetPk].bank.config.assetWeightMaint,
                         m1.pools[debtPk].bank.config.liabilityWeightMaint)
             && ONE <= FeedPrice(feeds, assetPk, Low).value && 0 < FeedPrice(feeds, debtPk, High).value <= 1024 * ONE
             && m1.pools[assetPk].bank.mintDecimals <= 9 && m1.pools[assetPk].bank.assetShareValue <= 65536 * ONE
    ensures OnlyWorsens(AccrueBoth(m, assetPk, debtPk, now).value, liquidator, liquidatee, assetPk, debtPk, amount, feeds,
                        now)
    ensures Liquidate(m, liquidator, liquidatee, assetPk, debtPk, amount, feeds, now).Err?
  {
    hide Inv, AccrueBoth, FeedPrice, Liquidate, OnlyWorsens, Deal.Change, Deal.Above, Pow10, Drifts, TooClose;
    var m1 := AccrueBoth(m, assetPk, debtPk, now).value;
    AccrueBothEffect(m, assetPk, debtPk, now);
    PoolIsOk(m1, assetPk);
    PoolIsOk(m1, debtPk);
    PowAtMost(m1.pools[assetPk].bank.mintDecimals);
    TooCloseLoses(DealOf(m1, assetPk, debtPk, amount, feeds));
    RefusedByWeights(m, liquidator, liquidatee, assetPk, debtPk, amount, feeds, now);
  }

  /** Requests that make no sense are refused anyway. */
  lemma BadRequestIsRefused(m: Market, liquidator: nat, liquidatee: nat, assetPk: nat, debtPk: nat, amount: nat,
                            feeds: map<nat, Feed>, now: nat)
    requires amount == 0 || assetPk == debtPk || liquidator == liquidatee
    ensures Liquidate(m, liquidator, liquidatee, assetPk, debtPk, amount, feeds, now).Err?
  {
  }

  lemma PowAtMost(n: nat)
    requires n <= 9
    ensures Pow10(n) <= 1_000_000_000
  {
    assert Pow10(9) == 1_000_000_000;
    PowGrows(n, 9);
  }

  lemma {:induction false} PowGrows(n: nat, k: nat)
    requires n <= k
    ensures Pow10(n) <= Pow10(k)
  {
    if n < k {
      PowGrows(n, k - 1);
    }
  }
}
