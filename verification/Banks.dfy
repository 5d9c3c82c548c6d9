/** A lending pool: total shares of depositors and borrowers, the value of one
    share of each, and fees collected but not yet paid out. */
module Banks {
  import opened Results
  import opened FixedPoint
  import opened Interest
  import opened AccrualBounds
  import opened Valuation

  datatype OperationalState = Paused | Operational | ReduceOnly

  datatype RiskTier = Collateral | Isolated

  datatype BankConfig = BankConfig(
    assetWeightInit: int, assetWeightMaint: int,
    liabilityWeightInit: int, liabilityWeightMaint: int,
    depositLimit: nat, borrowLimit: nat,
    rates: RateConfig,
    operationalState: OperationalState,
    riskTier: RiskTier,
    totalAssetValueInitLimit: nat)
  {
    predicate Valid() {
      && 0 <= assetWeightInit <= ONE
      && assetWeightInit <= assetWeightMaint
      && ONE <= liabilityWeightMaint <= liabilityWeightInit
      && rates.Valid()
      && (riskTier == Isolated ==> assetWeightInit == 0 && assetWeightMaint == 0)
    }

    function Validate(): Result<()> {
      Check(Valid(), InvalidConfig)
    }
  }

  datatype BankState = BankState(
    mintDecimals: nat,
    assetShareValue: int, liabilityShareValue: int,
    totalAssetShares: int, totalLiabilityShares: int,
    insuranceFees: int, groupFees: int, programFees: int,
    lastUpdate: int,
    config: BankConfig,
    lendingEmissions: bool, borrowEmissions: bool, emissionsSetUp: bool,
    emissionsRate: nat, emissionsRemaining: int)
  {
    function AssetAmount(shares: int): Result<int> {
      CheckedMul(shares, assetShareValue)
    }

    function LiabilityAmount(shares: int): Result<int> {
      CheckedMul(shares, liabilityShareValue)
    }

    function AssetShares(amount: int): Result<int> {
      CheckedDiv(amount, assetShareValue)
    }

    function LiabilityShares(amount: int): Result<int> {
      CheckedDiv(amount, liabilityShareValue)
    }

    function ChangeAssetShares(shares: int, bypassDepositLimit: bool): Result<BankState> {
      var total :- Checked(totalAssetShares + shares);
      if 0 < shares && config.depositLimit != U64_MAX && !bypassDepositLimit then
        var amount :- AssetAmount(total);
        var _ :- Check(amount < config.depositLimit * ONE, BankAssetCapacityExceeded);
        Ok(this.(totalAssetShares := total))
      else
        Ok(this.(totalAssetShares := total))
    }

    function ChangeLiabilityShares(shares: int, bypassBorrowLimit: bool): Result<BankState> {
      var total :- Checked(totalLiabilityShares + shares);
      if !bypassBorrowLimit && 0 < shares && config.borrowLimit != U64_MAX then
        var amount :- LiabilityAmount(total);
        var _ :- Check(amount < config.borrowLimit * ONE, BankLiabilityCapacityExceeded);
        Ok(this.(totalLiabilityShares := total))
      else
        Ok(this.(totalLiabilityShares := total))
    }

    function CheckUtilizationRatio(): Result<()> {
      var assets :- AssetAmount(totalAssetShares);
      var liabilities :- LiabilityAmount(totalLiabilityShares);
      Check(liabilities <= assets, IllegalUtilizationRatio)
    }

    function AssertOperational(increasing: bool): Result<()> {
      match config.operationalState
      case Paused => Err(BankPaused)
      case Operational => Ok(())
      case ReduceOnly => Check(!increasing, BankReduceOnly)
    }

    function AccrueInterest(now: int, fees: ProgramFees): Result<BankState> {
      if now < lastUpdate then Err(Panic) else
      if now == lastUpdate then Ok(this) else
      var assets :- AssetAmount(totalAssetShares);
      var liabilities :- LiabilityAmount(totalLiabilityShares);
      if assets == 0 || liabilities == 0 then Ok(this.(lastUpdate := now)) else
      var a :- AccrualChanges(now - lastUpdate, assets, liabilities, config.rates, fees,
                              assetShareValue, liabilityShareValue);
      var group :- if 0 < a.group then Checked(a.group + groupFees) else Ok(groupFees);
      var insurance :- if 0 < a.insurance then Checked(a.insurance + insuranceFees) else Ok(insuranceFees);
      var program :- if 0 < a.protocol then Checked(a.protocol + programFees) else Ok(programFees);
      Ok(this.(lastUpdate := now,
               assetShareValue := a.assetShareValue, liabilityShareValue := a.liabilityShareValue,
               groupFees := group, insuranceFees := insurance, programFees := program))
    }

    function SocializeLoss(loss: int): Result<BankState> {
      var total :- CheckedMul(totalAssetShares, assetShareValue);
      var left :- Checked(total - loss);
      var value :- CheckedDiv(left, totalAssetShares);
      Ok(this.(assetShareValue := value))
    }

    /** The factor by which the initial asset weight shrinks once deposits are
        worth more than the configured limit. */
    function AssetWeightInitDiscount(price: int): Result<Option<int>> {
      if config.totalAssetValueInitLimit == 0 then Ok(None) else
      var amount :- AssetAmount(totalAssetShares);
      var value :- CalcValue(amount, price, mintDecimals, None);
      if config.totalAssetValueInitLimit * ONE < value then
        var discount :- CheckedDiv(config.totalAssetValueInitLimit * ONE, value);
        Ok(Some(discount))
      else
        Ok(None)
    }

    /** What the bank owes depositors and fee collectors beyond what borrowers
        owe it: exact, in units of 2^-96. */
    function NetClaims(): int {
      totalAssetShares * assetShareValue + ONE * (insuranceFees + groupFees + programFees)
      - totalLiabilityShares * liabilityShareValue
    }

    /** What the constructor and every operation maintain. */
    predicate Healthy() {
      && 0 < assetShareValue && ONE <= liabilityShareValue
      && 0 <= totalAssetShares && 0 <= totalLiabilityShares
      && InRange(insuranceFees) && InRange(groupFees) && InRange(programFees)
      && 0 <= emissionsRemaining && (!emissionsSetUp ==> emissionsRemaining == 0)
      && config.Valid()
    }
  }

  function NewBank(config: BankConfig, decimals: nat, now: int): BankState {
    BankState(decimals, ONE, ONE, 0, 0, 0, 0, 0, now, config, false, false, false, 0, 0)
  }

  // ------------------------------------------------------------------ accrual

  /** Whether an accrual at `now` charges interest. */
  predicate Accrues(b: BankState, now: int) {
    b.lastUpdate < now && Product(b.totalAssetShares, b.assetShareValue) != 0
    && Product(b.totalLiabilityShares, b.liabilityShareValue) != 0
  }

  /** The figures behind an accrual. */
  function AccrualFigures(b: BankState, now: int, fees: ProgramFees): Figures
    requires b.Healthy() && Accrues(b, now) && b.AccrueInterest(now, fees).Ok?
  {
    var t := now - b.lastUpdate;
    var assets := Product(b.totalAssetShares, b.assetShareValue);
    var liabilities := Product(b.totalLiabilityShares, b.liabilityShareValue);
    var u := Truncated(liabilities * ONE, assets);
    var r := InterestRates(b.config.rates, fees, u).value;
    var lend, borrow := r.lending * t / YEAR, r.borrowing * t / YEAR;
    Figures(t, b.totalAssetShares, b.assetShareValue, assets,
            b.totalLiabilityShares, b.liabilityShareValue, liabilities,
            u, RateCurve(b.config.rates, u).value, r.lending, r.borrowing,
            r.insurance, r.group, r.protocol,
            lend, borrow, Product(b.assetShareValue, lend), Product(b.liabilityShareValue, borrow),
            Product(liabilities, r.insurance) * t / YEAR,
            Product(liabilities, r.group) * t / YEAR,
            Product(liabilities, r.protocol) * t / YEAR)
  }

  /** `AccrualChanges` in closed form. */
  lemma AccrualChangesAre(t: nat, assets: int, liabilities: int, c: RateConfig, fees: ProgramFees,
                          asv: int, lsv: int)
    requires 0 < assets && 0 < liabilities
    requires AccrualChanges(t, assets, liabilities, c, fees, asv, lsv).Ok?
    ensures var u := Truncated(liabilities * ONE, assets);
            && InterestRates(c, fees, u).Ok?
            && var r := InterestRates(c, fees, u).value;
            && 0 <= r.lending && 0 <= r.borrowing && 0 <= r.insurance && 0 <= r.group && 0 <= r.protocol
            && 0 <= r.lending * t / YEAR && 0 <= r.borrowing * t / YEAR
            && var a := AccrualChanges(t, assets, liabilities, c, fees, asv, lsv).value;
            && a == Accrual(asv + Product(asv, r.lending * t / YEAR), lsv + Product(lsv, r.borrowing * t / YEAR),
                            Product(liabilities, r.insurance) * t / YEAR,
                            Product(liabilities, r.group) * t / YEAR,
                            Product(liabilities, r.protocol) * t / YEAR)
            && 0 <= a.insurance && 0 <= a.group && 0 <= a.protocol
  {
    var r := InterestRates(c, fees, Truncated(liabilities * ONE, assets)).value;
    AccruedValueIs(r.lending, t, asv);
    AccruedValueIs(r.borrowing, t, lsv);
    InterestPaymentIs(r.insurance, t, liabilities);
    InterestPaymentIs(r.group, t, liabilities);
    InterestPaymentIs(r.protocol, t, liabilities);
  }

  lemma TotalsPositive(b: BankState, now: int)
    requires b.Healthy() && Accrues(b, now)
    ensures 0 < Product(b.totalAssetShares, b.assetShareValue)
    ensures 0 < Product(b.totalLiabilityShares, b.liabilityShareValue)
  {
    ProductBounds(b.totalAssetShares, b.assetShareValue);
    ProductBounds(b.totalLiabilityShares, b.liabilityShareValue);
  }

  /** The bank after an accrual with figures `f`. */
  function Accrued(b: BankState, now: int, f: Figures): BankState {
    b.(lastUpdate := now,
       assetShareValue := b.assetShareValue + f.lendStep,
       liabilityShareValue := b.liabilityShareValue + f.borrowStep,
       insuranceFees := b.insuranceFees + f.insurance,
       groupFees := b.groupFees + f.group,
       programFees := b.programFees + f.protocol)
  }

  predicate CountersFit(b: BankState, f: Figures) {
    InRange(b.insuranceFees + f.insurance) && InRange(b.groupFees + f.group) && InRange(b.programFees + f.protocol)
  }

  lemma AccrueIs(b: BankState, now: int, fees: ProgramFees)
    requires b.Healthy() && Accrues(b, now) && b.AccrueInterest(now, fees).Ok?
    ensures var f := AccrualFigures(b, now, fees);
            && 0 <= f.insurance && 0 <= f.group && 0 <= f.protocol && CountersFit(b, f)
            && b.AccrueInterest(now, fees).value == Accrued(b, now, f)
  {
    hide AccrualChanges;
    TotalsPositive(b, now);
    AccrualChangesAre(now - b.lastUpdate, Product(b.totalAssetShares, b.assetShareValue),
                      Product(b.totalLiabilityShares, b.liabilityShareValue), b.config.rates, fees,
                      b.assetShareValue, b.liabilityShareValue);
  }

  lemma FiguresRounded(b: BankState, now: int, fees: ProgramFees)
    requires b.Healthy() && Accrues(b, now) && b.AccrueInterest(now, fees).Ok?
    ensures AccrualFigures(b, now, fees).Rounded()
    ensures 0 <= AccrualFigures(b, now, fees).lendStep && 0 <= AccrualFigures(b, now, fees).borrowStep
  {
    var t := now - b.lastUpdate;
    var assets := Product(b.totalAssetShares, b.assetShareValue);
    var liabilities := Product(b.totalLiabilityShares, b.liabilityShareValue);
    var u := Truncated(liabilities * ONE, assets);
    TotalsPositive(b, now);
    ProductBounds(b.totalAssetShares, b.assetShareValue);
    ProductBounds(b.totalLiabilityShares, b.liabilityShareValue);
    QuotientBounds(liabilities, assets);
    AccrualChangesAre(t, assets, liabilities, b.config.rates, fees, b.assetShareValue, b.liabilityShareValue);
    var r := InterestRates(b.config.rates, fees, u).value;
    BorrowRateIsBaseAndFees(b.config.rates, fees, u);
    CurveAtKink(b.config.rates, u);
    ProductBounds(RateCurve(b.config.rates, u).value, u);
    DivisionBounds(r.lending * t, YEAR);
    DivisionBounds(r.borrowing * t, YEAR);
    ProductBounds(b.assetShareValue, r.lending * t / YEAR);
    ProductBounds(b.liabilityShareValue, r.borrowing * t / YEAR);
  }

  /** The most an accrual can raise net claims by. */
  function AccrualCredit(b: BankState, now: int, fees: ProgramFees): int {
    if b.Healthy() && Accrues(b, now) && b.AccrueInterest(now, fees).Ok?
    then Credit(AccrualFigures(b, now, fees)) else 0
  }

  /** The most an accrual can lower net claims by. */
  function AccrualDebit(b: BankState, now: int, fees: ProgramFees): int {
    if b.Healthy() && Accrues(b, now) && b.AccrueInterest(now, fees).Ok?
    then Debit(AccrualFigures(b, now, fees)) else 0
  }

  /** `b'` differs from `b` by interest: share values and fees have not fallen
      and nothing else has changed. */
  predicate AfterInterest(b: BankState, b': BankState) {
    && b'.Healthy()
    && b.assetShareValue <= b'.assetShareValue && b.liabilityShareValue <= b'.liabilityShareValue
    && b.insuranceFees <= b'.insuranceFees && b.groupFees <= b'.groupFees && b.programFees <= b'.programFees
    && b' == b.(lastUpdate := b'.lastUpdate,
                assetShareValue := b'.assetShareValue, liabilityShareValue := b'.liabilityShareValue,
                insuranceFees := b'.insuranceFees, groupFees := b'.groupFees, programFees := b'.programFees)
  }

  lemma AccruedShape(b: BankState, now: int, f: Figures)
    requires b.Healthy() && 0 <= f.lendStep && 0 <= f.borrowStep
    requires 0 <= f.insurance && 0 <= f.group && 0 <= f.protocol && CountersFit(b, f)
    requires f.assetShares == b.totalAssetShares && f.liabilityShares == b.totalLiabilityShares
    ensures AfterInterest(b, Accrued(b, now, f))
    ensures Accrued(b, now, f).NetClaims() - b.NetClaims() == f.Gap()
  {
  }

  lemma AccrualShape(b: BankState, now: int, fees: ProgramFees)
    requires b.Healthy() && b.AccrueInterest(now, fees).Ok?
    ensures AfterInterest(b, b.AccrueInterest(now, fees).value)
  {
    if Accrues(b, now) {
      AccrueIs(b, now, fees);
      FiguresRounded(b, now, fees);
      AccruedShape(b, now, AccrualFigures(b, now, fees));
    }
  }

  /** Interest charges borrowers what it credits to lenders and fee collectors,
      up to the stated rounding. */
  lemma AccrualBalances(b: BankState, now: int, fees: ProgramFees)
    requires b.Healthy() && b.AccrueInterest(now, fees).Ok?
    ensures var change := b.AccrueInterest(now, fees).value.NetClaims() - b.NetClaims();
            -AccrualDebit(b, now, fees) <= change <= AccrualCredit(b, now, fees)
  {
    if Accrues(b, now) {
      var f := AccrualFigures(b, now, fees);
      AccrueIs(b, now, fees);
      FiguresRounded(b, now, fees);
      AccruedShape(b, now, f);
      GapBounded(f);
    }
  }

  /** Over `seconds`, debts of `owed` cost `charge` at `rate` times the yearly rate `base`
      plus `fixed`, rounded down three times. */
  ghost predicate Charged(charge: int, owed: int, base: int, rate: int, fixed: int, seconds: int) {
    var yearly := base * rate + fixed * ONE;
    && 0 <= charge && charge * YEAR * ONE * ONE <= owed * yearly * seconds
    && owed * yearly * seconds < (charge + 1) * YEAR * ONE * ONE + (owed + ONE) * ONE * seconds
  }

  lemma ChargedIs(owed: int, base: int, rate: int, fixed: int, apr: int, seconds: nat)
    requires 0 <= owed && 0 <= apr && IsProduct(base, rate, apr - fixed)
    ensures Charged(Product(owed, apr) * seconds / YEAR, owed, base, rate, fixed, seconds)
  {
    var yearly, paid := base * rate + fixed * ONE, Product(owed, apr);
    ProductBounds(owed, apr);
    assert apr * ONE <= yearly < apr * ONE + ONE;
    Scale(apr * ONE, yearly, owed);
    Scale(yearly, apr * ONE + ONE, owed);
    assert yearly * owed == owed * yearly && apr * ONE * owed == owed * apr * ONE;
    assert (apr * ONE + ONE) * owed == owed * apr * ONE + owed * ONE;
    ChargedOver(owed, owed * yearly, paid, seconds);
  }

  lemma ChargedOver(owed: int, year: int, paid: int, seconds: nat)
    requires 0 <= paid && paid * ONE * ONE <= year <= (paid * ONE + ONE) * ONE + owed * ONE
    ensures var charge := paid * seconds / YEAR;
            && 0 <= charge && charge * YEAR * ONE * ONE <= year * seconds
            && year * seconds < (charge + 1) * YEAR * ONE * ONE + (owed + ONE) * ONE * seconds
  {
    Scale(0, paid, seconds);
    DivisionBounds(paid * seconds, YEAR);
    Scale(paid * ONE * ONE, year, seconds);
    Scale(year, (paid * ONE + ONE) * ONE + owed * ONE, seconds);
    assert paid * ONE * ONE * seconds == paid * seconds * ONE * ONE;
    assert ((paid * ONE + ONE) * ONE + owed * ONE) * seconds
        == paid * seconds * ONE * ONE + (owed + ONE) * ONE * seconds;
  }

  /** An accrual credits each collector with its own configured rate on the debts, over
      the time since the last one. */
  lemma CollectorsAreCredited(b: BankState, now: int, fees: ProgramFees)
    requires b.Healthy() && Accrues(b, now) && b.AccrueInterest(now, fees).Ok?
    ensures 0 < Product(b.totalAssetShares, b.assetShareValue)
    ensures var (b', c) := (b.AccrueInterest(now, fees).value, b.config.rates);
            var owed := Product(b.totalLiabilityShares, b.liabilityShareValue);
            var curve := RateCurve(c, Truncated(owed * ONE, Product(b.totalAssetShares, b.assetShareValue)));
            && curve.Ok?
            && var (base, t) := (curve.value, now - b.lastUpdate);
               && Charged(b'.insuranceFees - b.insuranceFees, owed, base, c.insuranceRate, c.insuranceFixed, t)
               && Charged(b'.groupFees - b.groupFees, owed, base, c.groupRate, c.groupFixed, t)
               && (fees.enabled ==> Charged(b'.programFees - b.programFees, owed, base, fees.rate, fees.fixed, t))
               && (!fees.enabled ==> b'.programFees == b.programFees)
  {
    hide AccrualChanges, InterestRates, RateCurve, Product, Truncated, Charged, IsProduct;
    AccrueIs(b, now, fees);
    TotalsPositive(b, now);
    var (f, c) := (AccrualFigures(b, now, fees), b.config.rates);
    AccrualChangesAre(f.seconds, f.assets, f.liabilities, c, fees, b.assetShareValue, b.liabilityShareValue);
    CollectorsHaveTheirRates(c, fees, f.utilization);
    ChargedIs(f.liabilities, f.base, c.insuranceRate, c.insuranceFixed, f.insuranceRate, f.seconds);
    ChargedIs(f.liabilities, f.base, c.groupRate, c.groupFixed, f.groupRate, f.seconds);
    if fees.enabled {
      ChargedIs(f.liabilities, f.base, fees.rate, fees.fixed, f.protocolRate, f.seconds);
    } else {
      NothingCharged(f.liabilities, f.seconds);
    }
  }

  lemma NothingCharged(owed: int, seconds: nat)
    ensures Product(owed, 0) * seconds / YEAR == 0
  {
  }

  // --------------------------------------------------------------- bad debt

  /** Socializing a loss that the deposits can bear takes at least the loss from
      depositors, and less than (total shares + 1) ulps more. */
  lemma SocializedLossBounds(b: BankState, loss: int)
    requires b.Healthy() && 0 < b.totalAssetShares && b.SocializeLoss(loss).Ok?
    requires 0 <= loss <= Product(b.totalAssetShares, b.assetShareValue)
    ensures var b' := b.SocializeLoss(loss).value;
            && 0 <= b'.assetShareValue <= b.assetShareValue
            && b' == b.(assetShareValue := b'.assetShareValue)
            && loss * ONE <= b.NetClaims() - b'.NetClaims() < loss * ONE + b.totalAssetShares + ONE
  {
    var total := Product(b.totalAssetShares, b.assetShareValue);
    var b' := b.SocializeLoss(loss).value;
    ProductBounds(b.totalAssetShares, b.assetShareValue);
    QuotientBounds(total - loss, b.totalAssetShares);
    assert b'.assetShareValue * b.totalAssetShares <= b.assetShareValue * b.totalAssetShares;
    Cancel(b'.assetShareValue, b.assetShareValue + 1, b.totalAssetShares);
  }

  /** The sign of the share value after a loss of any size: nothing in the code
      stops a loss larger than all deposits from making it negative. */
  lemma SocializedLossSign(b: BankState, loss: int)
    requires 0 < b.totalAssetShares && b.SocializeLoss(loss).Ok?
    ensures var value, over := b.SocializeLoss(loss).value.assetShareValue,
                               loss - Product(b.totalAssetShares, b.assetShareValue);
            && (0 <= value <==> over * ONE < b.totalAssetShares)
            && (0 < value <==> b.totalAssetShares <= -over * ONE)
  {
    var n, d := (Product(b.totalAssetShares, b.assetShareValue) - loss) * ONE, b.totalAssetShares;
    var q := (if 0 <= n then n else -n) / d;
    DivisionBounds(if 0 <= n then n else -n, d);
    if 0 < q { Scale(1, q, d); }
    if q < 0 { Scale(q, -1, d); }
  }
}
