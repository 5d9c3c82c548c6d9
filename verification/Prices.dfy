/** Oracle prices and the confidence interval by which they are biased. */
module Prices {
  import opened Results
  import opened FixedPoint
  import opened Valuation

  const CONF_INTERVAL_MULTIPLE: int := 596_726_950_626_591     // 2.12
  const STD_DEV_MULTIPLE: int := 551_690_954_352_886           // 1.96
  const MAX_CONF_INTERVAL: int := 14_073_748_835_533           // 0.05
  const SWITCHBOARD_PULL_PRECISION: nat := 18
  const MAX_SCALE: nat := 20

  datatype PriceType = TimeWeighted | RealTime

  datatype Bias = Low | High

  datatype PythPrice = PythPrice(price: int, conf: nat, expo: int)

  datatype Decimal = Decimal(mantissa: int, scale: nat)

  /** Both Pyth adapters hold a spot and an averaged price; the Switchboard
      adapters hold one price and its standard deviation. */
  datatype Feed =
    | Pyth(ema: PythPrice, spot: PythPrice)
    | SwitchboardV2(sliding: bool, minResults: nat, numSuccess: nat, result: Decimal, deviation: Decimal)
    | SwitchboardPull(value: int, stdDev: int)

  function FromNum(x: int): Result<int> {
    Unchecked(x * ONE)
  }

  function PythToFixed(x: int, expo: int): Result<int> {
    var scale :- Exp10(Abs(expo));
    if expo == 0 then Ok(x) else if expo < 0 then CheckedDiv(x, scale) else CheckedMul(x, scale)
  }

  function DecimalToFixed(d: Decimal): Result<int> {
    if d.scale <= MAX_SCALE then
      var m :- FromNum(d.mantissa);
      var scale :- Exp10(d.scale);
      OrInvalid(CheckedDiv(m, scale))
    else if MAX_SCALE < d.scale - MAX_SCALE then Err(Panic)
    else
      var m :- FromNum(Truncated(d.mantissa, Pow10(d.scale - MAX_SCALE)));
      var scale :- Exp10(MAX_SCALE);
      OrInvalid(CheckedDiv(m, scale))
  }

  function OrInvalid(r: Result<int>): Result<int> {
    if r.Ok? then r else Err(InvalidSwitchboardDecimalConversion)
  }

  /** The price before any bias. */
  function Quoted(feed: Feed, kind: PriceType): Result<int> {
    match feed
    case Pyth(ema, spot) =>
      var p := if kind == TimeWeighted then ema else spot;
      var x :- FromNum(p.price);
      PythToFixed(x, p.expo)
    case SwitchboardV2(sliding, minResults, numSuccess, result, _) =>
      var _ :- Check(sliding || minResults <= numSuccess, InvalidPrice);
      DecimalToFixed(result)
    case SwitchboardPull(value, _) =>
      var x :- FromNum(value);
      var scale :- Exp10(SWITCHBOARD_PULL_PRECISION);
      CheckedDiv(x, scale)
  }

  /** The interval before it is capped. */
  function Interval(feed: Feed, kind: PriceType): Result<int> {
    match feed
    case Pyth(ema, spot) =>
      var p := if kind == TimeWeighted then ema else spot;
      var x :- FromNum(p.conf);
      var conf :- PythToFixed(x, p.expo);
      CheckedMul(conf, CONF_INTERVAL_MULTIPLE)
    case SwitchboardV2(_, _, _, _, deviation) =>
      var d :- DecimalToFixed(deviation);
      CheckedMul(d, STD_DEV_MULTIPLE)
    case SwitchboardPull(_, stdDev) =>
      var d :- FromNum(stdDev);
      CheckedMul(d, STD_DEV_MULTIPLE)
  }

  /** The interval, capped at 5% of the price; a negative one panics. */
  function ConfidenceInterval(feed: Feed, kind: PriceType): Result<int> {
    var interval :- Interval(feed, kind);
    var price :- Quoted(feed, kind);
    var cap :- CheckedMul(price, MAX_CONF_INTERVAL);
    if 0 <= cap && 0 <= interval then Ok(Min(interval, cap)) else Err(Panic)
  }

  function PriceOfType(feed: Feed, kind: PriceType, bias: Bias): Result<int> {
    var price :- Quoted(feed, kind);
    var interval :- ConfidenceInterval(feed, kind);
    Checked(if bias == Low then price - interval else price + interval)
  }

  /** The bias moves a price by at most 5%, never below zero, and down for what
      an account owns, up for what it owes. */
  lemma BiasIsBounded(feed: Feed, kind: PriceType)
    requires PriceOfType(feed, kind, Low).Ok? && PriceOfType(feed, kind, High).Ok?
    ensures var price := Quoted(feed, kind).value;
            var low, high := PriceOfType(feed, kind, Low).value, PriceOfType(feed, kind, High).value;
            && 0 <= low <= price <= high
            && price - low == high - price <= Product(price, MAX_CONF_INTERVAL)
  {
  }

  /** Around `quote`, `low` and `high` are off by `multiple` times `deviation` or by 5% of
      the quote, whichever is less, rounded down. */
  ghost predicate Brackets(low: int, high: int, quote: int, deviation: int, multiple: int) {
    && quote - low == high - quote
    && IsLeastProduct(deviation, multiple, quote, MAX_CONF_INTERVAL, quote - low)
  }

  /** `m` is the lesser of two products, rounded down. */
  ghost predicate IsLeastProduct(a: int, b: int, c: int, d: int, m: int) {
    m * ONE <= Min(a * b, c * d) < m * ONE + ONE
  }

  lemma LeastProduct(a: int, b: int, c: int, d: int)
    ensures IsLeastProduct(a, b, c, d, Min(Product(a, b), Product(c, d)))
  {
    ProductBounds(a, b);
    ProductBounds(c, d);
  }

  /** A Pyth feed is read from its average or from its spot price, together with the
      confidence in that same price; a Switchboard feed from its only result, which
      has enough responses unless it slides. */
  lemma FeedIsReadFrom(feed: Feed, kind: PriceType)
    requires PriceOfType(feed, kind, Low).Ok? && PriceOfType(feed, kind, High).Ok?
    ensures var low, high := PriceOfType(feed, kind, Low).value, PriceOfType(feed, kind, High).value;
            match feed
            case Pyth(ema, spot) =>
              var p := match kind case TimeWeighted => ema case RealTime => spot;
              var quote, conf := PythToFixed(p.price * ONE, p.expo), PythToFixed(p.conf * ONE, p.expo);
              quote.Ok? && conf.Ok? && Brackets(low, high, quote.value, conf.value, CONF_INTERVAL_MULTIPLE)
            case SwitchboardV2(sliding, minResults, numSuccess, result, deviation) =>
              var quote, dev := DecimalToFixed(result), DecimalToFixed(deviation);
              && (sliding || minResults <= numSuccess)
              && quote.Ok? && dev.Ok? && Brackets(low, high, quote.value, dev.value, STD_DEV_MULTIPLE)
            case SwitchboardPull(value, stdDev) =>
              var quote := DecimalToFixed(Decimal(value, 18));
              quote.Ok? && Brackets(low, high, quote.value, stdDev * ONE, STD_DEV_MULTIPLE)
  {
    hide PythToFixed, Pow10, Product;
    var quote := Quoted(feed, kind).value;
    match feed
    case Pyth(ema, spot) =>
      var p := if kind == TimeWeighted then ema else spot;
      LeastProduct(PythToFixed(p.conf * ONE, p.expo).value, CONF_INTERVAL_MULTIPLE, quote, MAX_CONF_INTERVAL);
    case SwitchboardV2(_, _, _, _, deviation) =>
      LeastProduct(DecimalToFixed(deviation).value, STD_DEV_MULTIPLE, quote, MAX_CONF_INTERVAL);
    case SwitchboardPull(_, stdDev) =>
      LeastProduct(stdDev * ONE, STD_DEV_MULTIPLE, quote, MAX_CONF_INTERVAL);
  }

  lemma BiasedPriceNonNegative(feed: Feed, kind: PriceType, bias: Bias)
    requires PriceOfType(feed, kind, bias).Ok?
    ensures 0 <= PriceOfType(feed, kind, bias).value
  {
  }

  /** Switchboard has one price for both purposes. */
  lemma SwitchboardHasOnePrice(feed: Feed, bias: Bias)
    requires !feed.Pyth?
    ensures PriceOfType(feed, TimeWeighted, bias) == PriceOfType(feed, RealTime, bias)
  {
  }

  // -------------------------------------------------------- decimal prices

  /** A Pyth price is its integer scaled by a power of ten, rounded down once. */
  lemma PythIsDecimal(price: nat, expo: int)
    requires PythToFixed(price * ONE, expo).Ok?
    ensures var q, scale := PythToFixed(price * ONE, expo).value, Pow10(Abs(expo));
            && (expo <= 0 ==> q * scale <= price * ONE < q * scale + scale)
            && (0 <= expo ==> q == price * scale * ONE)
  {
    var scale := Pow10(Abs(expo));
    if expo < 0 {
      ScaledQuotient(price * ONE, scale);
    } else {
      assert price * ONE * (scale * ONE) == price * scale * ONE * ONE;
    }
  }

  lemma ScaledQuotient(x: int, scale: int)
    requires 0 <= x && 0 < scale
    ensures var q := Truncated(x * ONE, scale * ONE);
            q * scale <= x < q * scale + scale
  {
    var q := Truncated(x * ONE, scale * ONE);
    QuotientBounds(x, scale * ONE);
    assert q * (scale * ONE) == q * scale * ONE;
  }

  lemma {:induction false} PowAdd(a: nat, b: nat)
    ensures Pow10(a + b) == Pow10(a) * Pow10(b)
  {
    if a != 0 {
      PowAdd(a - 1, b);
      assert Pow10(a + b) == 10 * Pow10(a - 1 + b);
      assert 10 * (Pow10(a - 1) * Pow10(b)) == 10 * Pow10(a - 1) * Pow10(b);
    }
  }

  /** A Switchboard decimal is its mantissa scaled by a power of ten, rounded down to
      an ulp, or to 20 decimals first if it has more. */
  lemma SwitchboardIsDecimal(d: Decimal)
    requires 0 <= d.mantissa && DecimalToFixed(d).Ok?
    ensures var q, scale := DecimalToFixed(d).value, Pow10(d.scale);
            && q * scale <= d.mantissa * ONE
            && (d.scale <= MAX_SCALE ==> d.mantissa * ONE < q * scale + scale)
            && (MAX_SCALE < d.scale ==> d.mantissa * ONE < q * scale + scale + Pow10(d.scale - MAX_SCALE) * ONE)
  {
    hide Pow10;
    if d.scale <= MAX_SCALE {
      ScaledQuotient(d.mantissa * ONE, Pow10(d.scale));
    } else {
      var cut, scale := Pow10(d.scale - MAX_SCALE), Pow10(MAX_SCALE);
      var t := Truncated(d.mantissa, cut);
      DivisionBounds(d.mantissa, cut);
      TruncatedNonNegative(d.mantissa, cut);
      ScaledQuotient(t * ONE, scale);
      PowAdd(MAX_SCALE, d.scale - MAX_SCALE);
      CutDecimal(d.mantissa, t, cut, scale, Truncated(t * ONE * ONE, scale * ONE));
    }
  }

  lemma TruncatedNonNegative(n: int, d: int)
    requires 0 <= n && 0 < d
    ensures Truncated(n, d) == n / d && 0 <= n / d
  {
    DivisionBounds(n, d);
    if n / d < 0 {
      Scale(n / d, -1, d);
    }
  }

  lemma CutDecimal(mantissa: int, t: int, cut: int, scale: int, q: int)
    requires 0 < cut && t * cut <= mantissa < t * cut + cut && q * scale <= t * ONE < q * scale + scale
    ensures q * (scale * cut) <= mantissa * ONE < q * (scale * cut) + scale * cut + cut * ONE
  {
    Scale(q * scale, t * ONE, cut);
    Scale(t * ONE, q * scale + scale, cut);
    assert t * ONE * cut == t * cut * ONE;
    assert q * scale * cut == q * (scale * cut) && (q * scale + scale) * cut == q * (scale * cut) + scale * cut;
  }
}
