/** The interest model: a piecewise linear base rate, the split of what
    borrowers pay between lenders and three fee collectors, and simple interest
    over a period of whole seconds. */
module Interest {
  import opened Results
  import opened FixedPoint

  const YEAR: int := 31_536_000
  const SECONDS_PER_YEAR: int := YEAR * ONE

  datatype RateConfig = RateConfig(
    optimalUtilization: int, plateauRate: int, maxRate: int,
    insuranceFixed: int, insuranceRate: int,
    groupFixed: int, groupRate: int,
    originationFee: int)
  {
    predicate Valid() {
      0 < optimalUtilization < ONE && 0 < plateauRate < maxRate
    }
  }

  /** The program-level fees cached in the group. */
  datatype ProgramFees = ProgramFees(enabled: bool, rate: int, fixed: int) {
    function Rate(): int {
      if enabled then rate else 0
    }

    function Fixed(): int {
      if enabled then fixed else 0
    }
  }

  datatype Rates = Rates(lending: int, borrowing: int, group: int, insurance: int, protocol: int)

  function RateCurve(c: RateConfig, utilization: int): Result<int> {
    if utilization <= c.optimalUtilization then
      var x :- CheckedDiv(utilization, c.optimalUtilization);
      CheckedMul(x, c.plateauRate)
    else
      var excess :- Unchecked(utilization - c.optimalUtilization);
      var room :- Unchecked(ONE - c.optimalUtilization);
      var x :- CheckedDiv(excess, room);
      var span :- Unchecked(c.maxRate - c.plateauRate);
      var y :- CheckedMul(x, span);
      Checked(y + c.plateauRate)
  }

  function FeeRate(base: int, rateFee: int, fixedFee: int): Result<int> {
    if rateFee == 0 then Ok(fixedFee) else
    var m :- CheckedMul(base, rateFee);
    Checked(m + fixedFee)
  }

  function InterestRates(c: RateConfig, fees: ProgramFees, utilization: int): Result<Rates> {
    var rate2 :- Unchecked(c.insuranceRate + c.groupRate);
    var rateFees :- Unchecked(rate2 + fees.Rate());
    var fixed2 :- Unchecked(c.insuranceFixed + c.groupFixed);
    var fixedFees :- Unchecked(fixed2 + fees.Fixed());
    var base :- RateCurve(c, utilization);
    RatesOnBase(c, fees, base, utilization, rateFees, fixedFees)
  }

  /** The rates charged and paid when the curve says `base`. */
  function RatesOnBase(c: RateConfig, fees: ProgramFees, base: int, utilization: int,
                       rateFees: int, fixedFees: int): Result<Rates> {
    var lending :- CheckedMul(base, utilization);
    var markup :- Checked(ONE + rateFees);
    var marked :- CheckedMul(base, markup);
    var borrowing :- Checked(marked + fixedFees);
    var group :- FeeRate(base, c.groupRate, c.groupFixed);
    var insurance :- FeeRate(base, c.insuranceRate, c.insuranceFixed);
    var protocol :- FeeRate(base, fees.Rate(), fees.Fixed());
    if 0 <= lending && 0 <= borrowing && 0 <= group && 0 <= insurance && 0 <= protocol
    then Ok(Rates(lending, borrowing, group, insurance, protocol))
    else Err(Panic)
  }

  /** The principal `value` after `seconds` at the yearly rate `apr`. */
  function AccruedValue(apr: int, seconds: nat, value: int): Result<int> {
    var x :- CheckedMul(apr, seconds * ONE);
    var rate :- CheckedDiv(x, SECONDS_PER_YEAR);
    var growth :- Checked(ONE + rate);
    CheckedMul(value, growth)
  }

  /** The interest alone. */
  function InterestPayment(apr: int, seconds: nat, value: int): Result<int> {
    if apr == 0 then Ok(0) else
    var x :- CheckedMul(value, apr);
    var y :- CheckedMul(x, seconds * ONE);
    CheckedDiv(y, SECONDS_PER_YEAR)
  }

  datatype Accrual = Accrual(
    assetShareValue: int, liabilityShareValue: int, insurance: int, group: int, protocol: int)

  function AccrualChanges(seconds: nat, assets: int, liabilities: int, c: RateConfig, fees: ProgramFees,
                          assetShareValue: int, liabilityShareValue: int): Result<Accrual> {
    var utilization :- CheckedDiv(liabilities, assets);
    var r :- InterestRates(c, fees, utilization);
    var asv :- AccruedValue(r.lending, seconds, assetShareValue);
    var lsv :- AccruedValue(r.borrowing, seconds, liabilityShareValue);
    var insurance :- InterestPayment(r.insurance, seconds, liabilities);
    var group :- InterestPayment(r.group, seconds, liabilities);
    var protocol :- InterestPayment(r.protocol, seconds, liabilities);
    Ok(Accrual(asv, lsv, insurance, group, protocol))
  }

  // ---------------------------------------------------------------- the curve

  /** Rounding down keeps the order of products by a factor that is not negative. */
  lemma ProductMonotone(a: int, b: int, k: int)
    requires a <= b && 0 <= k
    ensures Product(a, k) <= Product(b, k) && Product(k, a) <= Product(k, b)
  {
    Scale(a, b, k);
  }

  lemma QuotientMonotone(a: int, b: int, d: int)
    requires 0 <= a <= b && 0 < d
    ensures Truncated(a * ONE, d) <= Truncated(b * ONE, d)
  {
    QuotientBounds(a, d);
    QuotientBounds(b, d);
    Cancel(Truncated(a * ONE, d), Truncated(b * ONE, d) + 1, d);
  }

  lemma QuotientOfSelf(d: int)
    requires 0 < d
    ensures Truncated(d * ONE, d) == ONE
  {
    DivisionIs(d * ONE, d, ONE);
  }

  /** Below the kink the curve stays under the plateau, above it over the plateau. */
  lemma CurveAtKink(c: RateConfig, u: int)
    requires c.Valid() && 0 <= u && RateCurve(c, u).Ok?
    ensures u <= c.optimalUtilization ==> 0 <= RateCurve(c, u).value <= c.plateauRate
    ensures c.optimalUtilization < u ==> c.plateauRate <= RateCurve(c, u).value
  {
    if u <= c.optimalUtilization {
      var x := Truncated(u * ONE, c.optimalUtilization);
      QuotientBounds(u, c.optimalUtilization);
      QuotientMonotone(u, c.optimalUtilization, c.optimalUtilization);
      QuotientOfSelf(c.optimalUtilization);
      ProductMonotone(x, ONE, c.plateauRate);
      ProductBounds(x, c.plateauRate);
    } else {
      var x := Truncated((u - c.optimalUtilization) * ONE, ONE - c.optimalUtilization);
      QuotientBounds(u - c.optimalUtilization, ONE - c.optimalUtilization);
      ProductBounds(x, c.maxRate - c.plateauRate);
    }
  }

  /** The rounded curve never falls, across the kink too. */
  lemma CurveMonotone(c: RateConfig, u: int, v: int)
    requires c.Valid() && 0 <= u <= v
    requires RateCurve(c, u).Ok? && RateCurve(c, v).Ok?
    ensures RateCurve(c, u).value <= RateCurve(c, v).value
  {
    var opt := c.optimalUtilization;
    if v <= opt {
      QuotientMonotone(u, v, opt);
      ProductMonotone(Truncated(u * ONE, opt), Truncated(v * ONE, opt), c.plateauRate);
    } else if opt < u {
      QuotientMonotone(u - opt, v - opt, ONE - opt);
      ProductMonotone(Truncated((u - opt) * ONE, ONE - opt), Truncated((v - opt) * ONE, ONE - opt),
                      c.maxRate - c.plateauRate);
    } else {
      CurveAtKink(c, u);
      CurveAtKink(c, v);
    }
  }

  /** The curve goes through its three anchors without rounding. */
  lemma CurveAnchors(c: RateConfig)
    requires c.Valid() && InRange(c.maxRate)
    ensures RateCurve(c, 0) == Ok(0)
    ensures RateCurve(c, c.optimalUtilization) == Ok(c.plateauRate)
    ensures RateCurve(c, ONE) == Ok(c.maxRate)
  {
    DivisionIs(0, c.optimalUtilization, 0);
    QuotientOfSelf(c.optimalUtilization);
    QuotientOfSelf(ONE - c.optimalUtilization);
  }

  /** The part `u / width` of `rise`, rounded down twice. */
  lemma PartOfRise(u: int, width: int, rise: int)
    requires 0 <= u && 0 < width && 0 <= rise
    ensures var r := Product(Truncated(u * ONE, width), rise);
            && r * width <= u * rise
            && u * rise * ONE <= (r + 1) * width * ONE + width * rise
  {
    var x := Truncated(u * ONE, width);
    var r := Product(x, rise);
    QuotientBounds(u, width);
    ProductBounds(x, rise);
    PartAtMost(u, width, rise, x, r);
    PartAtLeast(u, width, rise, x, r);
  }

  lemma PartAtMost(u: int, width: int, rise: int, x: int, r: int)
    requires 0 < width && 0 <= rise && x * width <= u * ONE && r * ONE <= x * rise
    ensures r * width <= u * rise
  {
    Scale(r * ONE, x * rise, width);
    Scale(x * width, u * ONE, rise);
    assert x * rise * width == x * width * rise;
    assert r * ONE * width == r * width * ONE && u * ONE * rise == u * rise * ONE;
  }

  lemma PartAtLeast(u: int, width: int, rise: int, x: int, r: int)
    requires 0 < width && 0 <= rise && u * ONE <= x * width + width && x * rise <= r * ONE + ONE
    ensures u * rise * ONE <= (r + 1) * width * ONE + width * rise
  {
    Scale(u * ONE, x * width + width, rise);
    Scale(x * rise, r * ONE + ONE, width);
    assert u * ONE * rise == u * rise * ONE;
    assert (x * width + width) * rise == x * rise * width + width * rise;
    assert (r * ONE + ONE) * width == (r + 1) * width * ONE;
  }

  /** The curve is the two straight lines through its anchors, rounded down. */
  lemma CurveIsLinear(c: RateConfig, u: int)
    requires c.Valid() && 0 <= u && RateCurve(c, u).Ok?
    ensures var r, opt := RateCurve(c, u).value, c.optimalUtilization;
            && (u <= opt ==> r * opt <= u * c.plateauRate
                             && u * c.plateauRate * ONE <= (r + 1) * opt * ONE + opt * c.plateauRate)
            && (opt < u ==>
                  var over, rise, width := r - c.plateauRate, c.maxRate - c.plateauRate, ONE - opt;
                  && over * width <= (u - opt) * rise
                  && (u - opt) * rise * ONE <= (over + 1) * width * ONE + width * rise)
  {
    hide Product, Truncated;
    if u <= c.optimalUtilization {
      PartOfRise(u, c.optimalUtilization, c.plateauRate);
    } else {
      PartOfRise(u - c.optimalUtilization, ONE - c.optimalUtilization, c.maxRate - c.plateauRate);
    }
  }

  /** No utilization up to 100% makes the curve overflow, and none takes the
      rate outside of zero and the maximum. */
  lemma CurveDefined(c: RateConfig, u: int)
    requires c.Valid() && InRange(c.maxRate) && 0 <= u <= ONE
    ensures RateCurve(c, u).Ok? && 0 <= RateCurve(c, u).value <= c.maxRate
  {
    var opt := c.optimalUtilization;
    if u <= opt {
      var x := Truncated(u * ONE, opt);
      QuotientBounds(u, opt);
      QuotientMonotone(u, opt, opt);
      QuotientOfSelf(opt);
      ProductMonotone(x, ONE, c.plateauRate);
      ProductBounds(x, c.plateauRate);
    } else {
      var x := Truncated((u - opt) * ONE, ONE - opt);
      QuotientBounds(u - opt, ONE - opt);
      QuotientMonotone(u - opt, ONE - opt, ONE - opt);
      QuotientOfSelf(ONE - opt);
      ProductMonotone(x, ONE, c.maxRate - c.plateauRate);
      ProductBounds(x, c.maxRate - c.plateauRate);
    }
  }

  // ------------------------------------------------------------ the fee split

  /** Rounding three products apart loses at most two ulps against rounding
      their sum once. */
  lemma SplitProduct(base: int, x: int, y: int, z: int)
    ensures 0 <= Product(base, ONE + x + y + z)
                 - (base + Product(base, x) + Product(base, y) + Product(base, z)) <= 2
  {
    assert base * (ONE + x + y + z) == base * ONE + base * x + base * y + base * z;
  }

  lemma RatesOnBaseSplit(c: RateConfig, fees: ProgramFees, base: int, u: int)
    requires RatesOnBase(c, fees, base, u, c.insuranceRate + c.groupRate + fees.Rate(),
                         c.insuranceFixed + c.groupFixed + fees.Fixed()).Ok?
    ensures var r := RatesOnBase(c, fees, base, u, c.insuranceRate + c.groupRate + fees.Rate(),
                                 c.insuranceFixed + c.groupFixed + fees.Fixed()).value;
            && r.lending == Product(base, u)
            && 0 <= r.borrowing - (base + r.group + r.insurance + r.protocol) <= 2
            && 0 <= r.lending && 0 <= r.group && 0 <= r.insurance && 0 <= r.protocol
  {
    SplitProduct(base, c.insuranceRate, c.groupRate, fees.Rate());
  }

  /** What borrowers pay is the base rate plus the three fee rates, and zero,
      one or two ulps on top, whatever the signs of the configured fees. */
  lemma BorrowRateIsBaseAndFees(c: RateConfig, fees: ProgramFees, u: int)
    requires InterestRates(c, fees, u).Ok?
    ensures RateCurve(c, u).Ok?
    ensures var r, base := InterestRates(c, fees, u).value, RateCurve(c, u).value;
            && r.lending == Product(base, u)
            && 0 <= r.borrowing - (base + r.group + r.insurance + r.protocol) <= 2
            && 0 <= r.lending && 0 <= r.group && 0 <= r.insurance && 0 <= r.protocol
  {
    RatesOnBaseSplit(c, fees, RateCurve(c, u).value, u);
  }

  /** Each collector is paid at its own rate: its configured part of the base rate, rounded
      down, and its fixed rate.  The program is paid only while its fees are enabled. */
  lemma CollectorsHaveTheirRates(c: RateConfig, fees: ProgramFees, u: int)
    requires InterestRates(c, fees, u).Ok?
    ensures RateCurve(c, u).Ok?
    ensures var r, base := InterestRates(c, fees, u).value, RateCurve(c, u).value;
            && IsProduct(base, c.groupRate, r.group - c.groupFixed)
            && IsProduct(base, c.insuranceRate, r.insurance - c.insuranceFixed)
            && (fees.enabled ==> IsProduct(base, fees.rate, r.protocol - fees.fixed))
            && (!fees.enabled ==> r.protocol == 0)
  {
    var base := RateCurve(c, u).value;
    ProductBounds(base, c.groupRate);
    ProductBounds(base, c.insuranceRate);
    ProductBounds(base, fees.rate);
  }

  // ---------------------------------------------------------- simple interest

  /** Dividing by a year of seconds is exact integer division of the seconds. */
  lemma PerYear(x: int)
    requires 0 <= x
    ensures Truncated(x * ONE, SECONDS_PER_YEAR) == x / YEAR
  {
    DivisionBounds(x, YEAR);
    DivisionIs(x * ONE, SECONDS_PER_YEAR, x / YEAR);
  }

  lemma TimesSeconds(x: int, seconds: nat)
    ensures Product(x, seconds * ONE) == x * seconds
  {
    assert x * (seconds * ONE) == x * seconds * ONE;
  }

  lemma AccruedValueIs(apr: int, seconds: nat, value: int)
    requires 0 <= apr && AccruedValue(apr, seconds, value).Ok?
    ensures 0 <= apr * seconds / YEAR
    ensures AccruedValue(apr, seconds, value).value == value + Product(value, apr * seconds / YEAR)
  {
    TimesSeconds(apr, seconds);
    Scale(0, apr, seconds);
    PerYear(apr * seconds);
    var rate := apr * seconds / YEAR;
    assert value * (ONE + rate) == value * ONE + value * rate;
  }

  lemma InterestPaymentIs(apr: int, seconds: nat, value: int)
    requires 0 <= apr && 0 <= value && InterestPayment(apr, seconds, value).Ok?
    ensures InterestPayment(apr, seconds, value).value == Product(value, apr) * seconds / YEAR
    ensures 0 <= InterestPayment(apr, seconds, value).value
  {
    ProductBounds(value, apr);
    Scale(0, Product(value, apr), seconds);
    if apr == 0 {
      assert Product(value, apr) * seconds == 0;
    } else {
      TimesSeconds(Product(value, apr), seconds);
      PerYear(Product(value, apr) * seconds);
    }
  }
}
