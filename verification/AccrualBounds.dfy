/** How far rounding lets the two sides of an accrual drift apart.  All totals
    here are exact: shares times share value, in units of 2^-96. */
module AccrualBounds {
  import opened FixedPoint
  import opened Interest

  /** Everything one accrual computes, tied together by its roundings. */
  datatype Figures = Figures(
    seconds: nat,
    assetShares: int, assetShareValue: int, assets: int,
    liabilityShares: int, liabilityShareValue: int, liabilities: int,
    utilization: int, base: int, lending: int, borrowing: int,
    insuranceRate: int, groupRate: int, protocolRate: int,
    lendGrowth: int, borrowGrowth: int, lendStep: int, borrowStep: int,
    insurance: int, group: int, protocol: int)
  {
    ghost predicate Rounded() {
      && 0 <= assetShares && 0 < assetShareValue && 0 < assets
      && IsProduct(assetShares, assetShareValue, assets)
      && 0 <= liabilityShares && 0 < liabilityShareValue && 0 < liabilities
      && IsProduct(liabilityShares, liabilityShareValue, liabilities)
      && 0 <= utilization && IsQuotient(liabilities, assets, utilization)
      && 0 <= base && 0 <= lending && IsProduct(base, utilization, lending)
      && 0 <= insuranceRate && 0 <= groupRate && 0 <= protocolRate
      && 0 <= borrowing - (base + insuranceRate + groupRate + protocolRate) <= 2
      && IsPerYear(lending * seconds, lendGrowth)
      && IsPerYear(borrowing * seconds, borrowGrowth)
      && IsProduct(assetShareValue, lendGrowth, lendStep)
      && IsProduct(liabilityShareValue, borrowGrowth, borrowStep)
      && insurance == Product(liabilities, insuranceRate) * seconds / YEAR
      && group == Product(liabilities, groupRate) * seconds / YEAR
      && protocol == Product(liabilities, protocolRate) * seconds / YEAR
    }

    /** Growth of assets and fees over growth of liabilities. */
    function Gap(): int {
      assetShares * lendStep + ONE * (insurance + group + protocol) - liabilityShares * borrowStep
    }

    function FeeRates(): int {
      insuranceRate + groupRate + protocolRate
    }
  }

  ghost predicate IsPerYear(x: int, q: int) {
    0 <= q && q * YEAR <= x < q * YEAR + YEAR
  }

  // ------------------------------------------------- one side of the bank

  /** `shares` worth `whole`, whose value goes up by `step`, gain about
      `whole * growth`. */
  lemma StepBounds(shares: int, value: int, whole: int, growth: int, step: int)
    requires 0 <= shares && 0 <= growth
    requires IsProduct(shares, value, whole) && IsProduct(value, growth, step)
    ensures whole * growth - shares <= shares * step <= (whole + 1) * growth
  {
    var exact := shares * value;
    Scale(step * ONE, value * growth, shares);
    Scale(value * growth - ONE, step * ONE, shares);
    assert exact * growth - ONE * shares <= shares * step * ONE <= exact * growth;
    Scale(whole * ONE, exact, growth);
    Scale(exact, whole * ONE + ONE, growth);
    assert whole * ONE * growth == whole * growth * ONE;
    assert (whole * ONE + ONE) * growth == (whole + 1) * growth * ONE;
  }

  /** A fee of `rate` on `liabilities`, rounded twice. */
  lemma FeeBounds(liabilities: int, rate: int, seconds: nat)
    requires 0 <= liabilities && 0 <= rate
    ensures var fee := Product(liabilities, rate) * seconds / YEAR;
            && ONE * fee * YEAR <= liabilities * rate * seconds
            && (liabilities * rate - ONE) * seconds - ONE * YEAR <= ONE * fee * YEAR
  {
    var p := Product(liabilities, rate);
    ProductBounds(liabilities, rate);
    DivisionBounds(p * seconds, YEAR);
    Scale(p * ONE, liabilities * rate, seconds);
    Scale(liabilities * rate - ONE, p * ONE, seconds);
    assert p * ONE * seconds == ONE * (p * seconds);
  }

  lemma FeesBounds(f: Figures)
    requires f.Rounded()
    ensures ONE * (f.insurance + f.group + f.protocol) * YEAR <= f.liabilities * f.FeeRates() * f.seconds
    ensures f.liabilities * f.FeeRates() * f.seconds - 3 * ONE * f.seconds - 3 * ONE * YEAR
            <= ONE * (f.insurance + f.group + f.protocol) * YEAR
  {
    hide Product;
    FeeBounds(f.liabilities, f.insuranceRate, f.seconds);
    FeeBounds(f.liabilities, f.groupRate, f.seconds);
    FeeBounds(f.liabilities, f.protocolRate, f.seconds);
    FeesSum(f.liabilities, f.seconds, f.insuranceRate, f.groupRate, f.protocolRate, f.insurance, f.group, f.protocol);
  }

  lemma FeesSum(l: int, t: nat, r1: int, r2: int, r3: int, f1: int, f2: int, f3: int)
    requires (l * r1 - ONE) * t - ONE * YEAR <= ONE * f1 * YEAR <= l * r1 * t
    requires (l * r2 - ONE) * t - ONE * YEAR <= ONE * f2 * YEAR <= l * r2 * t
    requires (l * r3 - ONE) * t - ONE * YEAR <= ONE * f3 * YEAR <= l * r3 * t
    ensures l * (r1 + r2 + r3) * t - 3 * ONE * t - 3 * ONE * YEAR <= ONE * (f1 + f2 + f3) * YEAR <= l * (r1 + r2 + r3) * t
  {
    LessOne(l * r1, t);
    LessOne(l * r2, t);
    LessOne(l * r3, t);
    ThreeTimes(l, r1, r2, r3);
    ThreeTimes(t, l * r1, l * r2, l * r3);
  }

  lemma LessOne(x: int, t: int)
    ensures (x - ONE) * t == x * t - ONE * t
  {
  }

  lemma ThreeTimes(k: int, x: int, y: int, z: int)
    ensures k * (x + y + z) == (x + y + z) * k == k * x + k * y + k * z == x * k + y * k + z * k
  {
  }

  /** The lending rate on all assets is about the base rate on all liabilities. */
  lemma LendingBounds(assets: int, liabilities: int, utilization: int, base: int, lending: int)
    requires 0 < assets && 0 <= base
    requires IsQuotient(liabilities, assets, utilization) && IsProduct(base, utilization, lending)
    ensures lending * assets <= base * liabilities
    ensures base * liabilities * ONE - base * assets - assets * ONE <= lending * assets * ONE
  {
    var used := utilization * assets;
    Scale(lending * ONE, base * utilization, assets);
    Scale(base * utilization - ONE, lending * ONE, assets);
    assert base * utilization * assets == base * used;
    assert base * used - assets * ONE <= lending * assets * ONE <= base * used;
    Scale(used, liabilities * ONE, base);
    Scale(liabilities * ONE - assets, used, base);
    assert (liabilities * ONE - assets) * base == base * liabilities * ONE - base * assets;
  }

  // ----------------------------------------------------------- upper bound

  lemma LendersGainAtMost(f: Figures)
    requires f.Rounded()
    ensures f.assets * YEAR * (f.assetShares * f.lendStep)
            <= (f.assets + 1) * (f.base * f.liabilities * f.seconds)
  {
    hide Product;
    LendingBounds(f.assets, f.liabilities, f.utilization, f.base, f.lending);
    StepBounds(f.assetShares, f.assetShareValue, f.assets, f.lendGrowth, f.lendStep);
    GrowthAtMost(f.assets, f.lending, f.base * f.liabilities, f.seconds, f.lendGrowth);
    GainAtMost(f.assets, f.lendGrowth, f.assetShares * f.lendStep, f.base * f.liabilities * f.seconds);
  }

  lemma GrowthAtMost(assets: int, lending: int, due: int, seconds: nat, growth: int)
    requires 0 < assets && growth * YEAR <= lending * seconds && lending * assets <= due
    ensures growth * assets * YEAR <= due * seconds
  {
    Scale(growth * YEAR, lending * seconds, assets);
    Scale(lending * assets, due, seconds);
    assert growth * YEAR * assets == growth * assets * YEAR;
    assert lending * seconds * assets == lending * assets * seconds;
  }

  lemma GainAtMost(assets: int, growth: int, gain: int, due: int)
    requires 0 < assets && gain <= (assets + 1) * growth && growth * assets * YEAR <= due
    ensures assets * YEAR * gain <= (assets + 1) * due
  {
    Scale(gain, (assets + 1) * growth, assets);
    Scale(growth * assets * YEAR, due, assets + 1);
    assert (assets + 1) * growth * assets == growth * assets * (assets + 1);
    assert assets * YEAR * gain == gain * assets * YEAR;
  }

  lemma BorrowersOweAtLeast(f: Figures)
    requires f.Rounded()
    ensures f.liabilities * (f.base + f.FeeRates()) * f.seconds - YEAR * (f.liabilities + f.liabilityShares)
            < YEAR * (f.liabilityShares * f.borrowStep)
  {
    StepBounds(f.liabilityShares, f.liabilityShareValue, f.liabilities, f.borrowGrowth, f.borrowStep);
    OweAtLeast(f.liabilities, f.borrowing, f.base + f.FeeRates(), f.seconds, f.borrowGrowth);
  }

  lemma OweAtLeast(liabilities: int, borrowing: int, floor: int, seconds: nat, growth: int)
    requires 0 < liabilities && floor <= borrowing && borrowing * seconds < growth * YEAR + YEAR
    ensures liabilities * floor * seconds - YEAR * liabilities < YEAR * (liabilities * growth)
  {
    Scale(floor, borrowing, seconds);
    Scale(floor * seconds + 1, growth * YEAR + YEAR, liabilities);
    assert (floor * seconds + 1) * liabilities == liabilities * floor * seconds + liabilities;
  }

  /** Assets and fees together outgrow liabilities by less than (liabilities +
      liability shares) ulps plus the base rate of the period on one ulp, when
      liabilities do not exceed assets. */
  lemma GapAtMost(f: Figures)
    requires f.Rounded()
    ensures f.assets * YEAR * f.Gap()
            < f.liabilities * f.base * f.seconds + f.assets * YEAR * (f.liabilities + f.liabilityShares)
    ensures f.liabilities <= f.assets ==>
            YEAR * f.Gap() < f.base * f.seconds + YEAR * (f.liabilities + f.liabilityShares)
  {
    LendersGainAtMost(f);
    FeesBounds(f);
    BorrowersOweAtLeast(f);
    SumAtMost(f.assets, f.liabilities, f.seconds, f.base, f.FeeRates(), f.assetShares * f.lendStep,
              ONE * (f.insurance + f.group + f.protocol), f.liabilityShares * f.borrowStep,
              f.liabilities + f.liabilityShares);
  }

  lemma SumAtMost(a: int, l: int, t: nat, base: int, feeRates: int, lend: int, fees: int, owe: int, slack: int)
    requires 0 < a && 0 <= l && 0 <= base
    requires a * YEAR * lend <= (a + 1) * (base * l * t)
    requires fees * YEAR <= l * feeRates * t
    requires l * (base + feeRates) * t - YEAR * slack < YEAR * owe
    ensures a * YEAR * (lend + fees - owe) < l * base * t + a * YEAR * slack
    ensures l <= a ==> YEAR * (lend + fees - owe) < base * t + YEAR * slack
  {
    var due, rest := base * l * t, YEAR * (fees - owe);
    assert l * (base + feeRates) * t == due + l * feeRates * t;
    assert rest < YEAR * slack - due;
    Scale(rest + 1, YEAR * slack - due, a);
    assert (rest + 1) * a == rest * a + a;
    assert (YEAR * slack - due) * a == a * YEAR * slack - due * a;
    assert (a + 1) * due == due * a + due;
    assert a * YEAR * (lend + fees - owe) == a * YEAR * lend + rest * a;
    if l <= a {
      Scale(0, base, t);
      Scale(l, a, base * t);
      assert due == l * (base * t);
      assert YEAR * (lend + fees - owe) * a < (base * t + YEAR * slack) * a;
      Cancel(YEAR * (lend + fees - owe), base * t + YEAR * slack, a);
    }
  }

  // ----------------------------------------------------------- lower bound

  lemma LendersGainAtLeast(f: Figures)
    requires f.Rounded()
    ensures ONE * YEAR * (f.assetShares * f.lendStep)
            >= (f.base * f.liabilities * ONE - f.base * f.assets - f.assets * ONE) * f.seconds
               - ONE * YEAR * (f.assets + f.assetShares)
  {
    LendingBounds(f.assets, f.liabilities, f.utilization, f.base, f.lending);
    StepBounds(f.assetShares, f.assetShareValue, f.assets, f.lendGrowth, f.lendStep);
    GainAtLeast(f.assets, f.lending, f.seconds, f.lendGrowth,
                f.base * f.liabilities * ONE - f.base * f.assets - f.assets * ONE);
  }

  lemma GainAtLeast(assets: int, lending: int, seconds: nat, growth: int, due: int)
    requires 0 < assets && lending * seconds < growth * YEAR + YEAR && due <= lending * assets * ONE
    ensures due * seconds - ONE * YEAR * assets <= ONE * YEAR * (assets * growth)
  {
    Scale(lending * seconds, growth * YEAR + YEAR, assets);
    Scale(due, lending * assets * ONE, seconds);
    assert lending * assets * ONE * seconds == ONE * (lending * seconds * assets);
  }

  lemma BorrowersOweAtMost(f: Figures)
    requires f.Rounded()
    ensures YEAR * (f.liabilityShares * f.borrowStep)
            <= (f.borrowing + f.liabilities * (f.base + f.FeeRates() + 2)) * f.seconds
  {
    StepBounds(f.liabilityShares, f.liabilityShareValue, f.liabilities, f.borrowGrowth, f.borrowStep);
    OweAtMost(f.liabilities, f.borrowing, f.base + f.FeeRates() + 2, f.seconds, f.borrowGrowth);
  }

  lemma OweAtMost(liabilities: int, borrowing: int, ceiling: int, seconds: nat, growth: int)
    requires 0 < liabilities && borrowing <= ceiling && growth * YEAR <= borrowing * seconds
    ensures YEAR * ((liabilities + 1) * growth) <= (borrowing + liabilities * ceiling) * seconds
  {
    Scale(growth * YEAR, borrowing * seconds, liabilities + 1);
    Scale(borrowing, ceiling, liabilities * seconds);
    assert borrowing * seconds * (liabilities + 1) == borrowing * seconds + borrowing * (liabilities * seconds);
  }

  /** How much liabilities may outgrow assets and fees, scaled by a year. */
  function Shortfall(f: Figures): int {
    f.seconds * (f.base * f.assets + ONE * f.assets + ONE * f.borrowing + 2 * ONE * f.liabilities + 3 * ONE * ONE)
    + ONE * YEAR * (f.assets + f.assetShares + 3 * ONE)
  }

  lemma GapAtLeast(f: Figures)
    requires f.Rounded()
    ensures -Shortfall(f) <= ONE * YEAR * f.Gap()
  {
    LendersGainAtLeast(f);
    FeesBounds(f);
    BorrowersOweAtMost(f);
    SumAtLeast(f.assets, f.liabilities, f.seconds, f.base, f.borrowing, f.FeeRates(),
               f.assetShares * f.lendStep, ONE * (f.insurance + f.group + f.protocol),
               f.liabilityShares * f.borrowStep, f.assets + f.assetShares);
  }

  lemma SumAtLeast(a: int, l: int, t: nat, base: int, borrowing: int, feeRates: int,
                   lend: int, fees: int, owe: int, slack: int)
    requires (base * l * ONE - base * a - a * ONE) * t - ONE * YEAR * slack <= ONE * YEAR * lend
    requires l * feeRates * t - 3 * ONE * t - 3 * ONE * YEAR <= fees * YEAR
    requires YEAR * owe <= (borrowing + l * (base + feeRates + 2)) * t
    ensures -(t * (base * a + ONE * a + ONE * borrowing + 2 * ONE * l + 3 * ONE * ONE)
              + ONE * YEAR * (slack + 3 * ONE))
            <= ONE * YEAR * (lend + fees - owe)
  {
    Collect(base * l, base * a, a, t);
    ThreeTimes(l, base, feeRates, 2);
    ThreeTimes(t, borrowing, l * (base + feeRates + 2), 0);
    ThreeTimes(t, l * base, l * feeRates, l * 2);
    ThreeTimes(t, base * a + ONE * a, ONE * borrowing + 2 * ONE * l, 3 * ONE * ONE);
    ThreeTimes(t, base * a, ONE * a, 0);
    ThreeTimes(t, ONE * borrowing, 2 * ONE * l, 0);
  }

  lemma Collect(x: int, y: int, z: int, t: int)
    ensures (x * ONE - y - z * ONE) * t == ONE * (x * t) - y * t - ONE * (z * t)
  {
  }

  /** The most the gap can be. */
  function Credit(f: Figures): int {
    if f.assets <= 0 then 0 else
    (f.liabilities * f.base * f.seconds + f.assets * YEAR * (f.liabilities + f.liabilityShares))
    / (f.assets * YEAR)
  }

  /** The most the gap can be below zero. */
  function Debit(f: Figures): int {
    Shortfall(f) / (ONE * YEAR)
  }

  /** If `n` bounds `d` times `x`, the quotient bounds `x`. */
  lemma QuotientIsBound(x: int, d: int, n: int)
    requires 0 < d && d * x <= n
    ensures x <= n / d
  {
    DivisionBounds(n, d);
    Cancel(x, n / d + 1, d);
  }

  lemma GapBounded(f: Figures)
    requires f.Rounded()
    ensures -Debit(f) <= f.Gap() <= Credit(f)
  {
    GapAtMost(f);
    GapAtLeast(f);
    QuotientIsBound(f.Gap(), f.assets * YEAR,
      f.liabilities * f.base * f.seconds + f.assets * YEAR * (f.liabilities + f.liabilityShares));
    QuotientIsBound(-f.Gap(), ONE * YEAR, Shortfall(f));
  }

  /** Without rounding the accrual balances: borrowers owe exactly what lenders
      and fee collectors gain. */
  lemma ExactAccrualBalances(assets: real, liabilities: real, years: real, base: real,
                             rateFees: seq<real>, fixedFees: seq<real>)
    requires 0.0 < assets && |rateFees| == |fixedFees| == 3
    ensures var lending := base * (liabilities / assets);
            var borrowing := base * (1.0 + rateFees[0] + rateFees[1] + rateFees[2])
                             + (fixedFees[0] + fixedFees[1] + fixedFees[2]);
            liabilities * borrowing * years
            == assets * lending * years
               + liabilities * (base * rateFees[0] + fixedFees[0]) * years
               + liabilities * (base * rateFees[1] + fixedFees[1]) * years
               + liabilities * (base * rateFees[2] + fixedFees[2]) * years
  {
    assert assets * (base * (liabilities / assets)) == base * liabilities;
  }
}
