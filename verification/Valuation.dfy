/** Values of token amounts at a price. */
module Valuation {
  import opened Results
  import opened FixedPoint
  import opened Interest

  const ZERO_AMOUNT_THRESHOLD: int := 28_147_497_671           // 0.0001
  const BANKRUPT_THRESHOLD: int := 28_147_497_671_066          // 0.1
  const EMPTY_BALANCE_THRESHOLD: int := ONE

  predicate IsZeroWithTolerance(x: int) {
    Abs(x) < ZERO_AMOUNT_THRESHOLD
  }

  predicate IsPositiveWithTolerance(x: int) {
    ZERO_AMOUNT_THRESHOLD < x
  }

  function Pow10(n: nat): (p: int)
    ensures 0 < p
  {
    if n == 0 then 1 else 10 * Pow10(n - 1)
  }

  /** The table of 24 powers of ten; indexing past its end panics. */
  function Exp10(n: nat): Result<int> {
    if n < 24 then Ok(Pow10(n) * ONE) else Err(Panic)
  }

  function CalcValue(amount: int, price: int, decimals: nat, weight: Option<int>): Result<int> {
    if amount == 0 then Ok(0) else
    var scale :- Exp10(decimals);
    var weighted :- if weight.Some? then Unchecked(Product(amount, weight.value)) else Ok(amount);
    var priced :- CheckedMul(weighted, price);
    CheckedDiv(priced, scale)
  }

  function CalcAmount(value: int, price: int, decimals: nat): Result<int> {
    var scale :- Exp10(decimals);
    var scaled :- CheckedMul(value, scale);
    CheckedDiv(scaled, price)
  }

  /** A value grows with its weight and its price. */
  lemma ValueMonotone(amount: int, p1: int, p2: int, decimals: nat, w1: int, w2: int)
    requires 0 <= amount && 0 <= p1 <= p2 && 0 <= w1 <= w2
    requires CalcValue(amount, p1, decimals, Some(w1)).Ok?
    requires CalcValue(amount, p2, decimals, Some(w2)).Ok?
    ensures 0 <= CalcValue(amount, p1, decimals, Some(w1)).value
              <= CalcValue(amount, p2, decimals, Some(w2)).value
  {
    hide Product, Truncated, Pow10;
    if amount != 0 {
      var m1, m2 := Product(amount, w1), Product(amount, w2);
      ProductGrows(amount, w1, w2);
      ProductMonotone(m1, m2, p1);
      ProductGrows(m2, p1, p2);
      ProductBounds(m1, p1);
      var scale := Pow10(decimals) * ONE;
      QuotientMonotone(Product(m1, p1), Product(m2, p2), scale);
      QuotientBounds(Product(m1, p1), scale);
    }
  }

  lemma ProductGrows(k: int, a: int, b: int)
    requires 0 <= a <= b && 0 <= k
    ensures 0 <= Product(k, a) <= Product(k, b)
  {
    ProductBounds(k, a);
    ProductMonotone(a, b, k);
    assert a * k == k * a && b * k == k * b;
  }

  /** The liability amount bought with a value grows with the value. */
  lemma AmountMonotone(v1: int, v2: int, price: int, decimals: nat)
    requires 0 <= v1 <= v2 && 0 <= price
    requires CalcAmount(v1, price, decimals).Ok? && CalcAmount(v2, price, decimals).Ok?
    ensures 0 <= CalcAmount(v1, price, decimals).value <= CalcAmount(v2, price, decimals).value
  {
    var scale := Pow10(decimals) * ONE;
    ProductMonotone(v1, v2, scale);
    ProductBounds(v1, scale);
    QuotientMonotone(Product(v1, scale), Product(v2, scale), price);
    QuotientBounds(Product(v1, scale), price);
  }

  /** A value is the exact product of amount, weight and price, rounded down three
      times. */
  lemma ValueBounds(amount: int, price: int, decimals: nat, weight: int)
    requires 0 <= amount && 0 <= price && 0 <= weight && CalcValue(amount, price, decimals, Some(weight)).Ok?
    ensures var v := CalcValue(amount, price, decimals, Some(weight)).value;
            && 0 <= v && v * Pow10(decimals) * ONE * ONE <= amount * weight * price
            && amount * weight * price < (v + 1) * Pow10(decimals) * ONE * ONE + price * ONE + 1
  {
    hide Pow10, Product, Truncated;
    if amount != 0 {
      var weighted := Product(amount, weight);
      ProductBounds(amount, weight);
      var priced := Product(weighted, price);
      ProductBounds(weighted, price);
      QuotientBounds(priced, Pow10(decimals) * ONE);
      ValueChain(amount * weight, price, Pow10(decimals), weighted, priced,
                 Truncated(priced * ONE, Pow10(decimals) * ONE));
    } else {
      assert 0 * weight * price == 0;
    }
  }

  /** Without a weight it is rounded down twice. */
  lemma UnweightedBounds(amount: int, price: int, decimals: nat)
    requires 0 <= amount && 0 <= price && CalcValue(amount, price, decimals, None).Ok?
    ensures var v := CalcValue(amount, price, decimals, None).value;
            0 <= v && v * Pow10(decimals) * ONE <= amount * price < (v + 1) * Pow10(decimals) * ONE
  {
    hide Pow10, Product, Truncated;
    if amount != 0 {
      var priced, scale := Product(amount, price), Pow10(decimals);
      ProductBounds(amount, price);
      QuotientBounds(priced, scale * ONE);
      var v := Truncated(priced * ONE, scale * ONE);
      assert v * (scale * ONE) == v * scale * ONE;
      assert (v + 1) * scale == v * scale + scale;
      assert v * scale <= priced < v * scale + scale;
    }
  }

  lemma ValueChain(whole: int, price: int, scale: int, weighted: int, priced: int, v: int)
    requires 0 <= price && 0 < scale && weighted * ONE <= whole < weighted * ONE + ONE
    requires priced * ONE <= weighted * price < priced * ONE + ONE
    requires v * (scale * ONE) <= priced * ONE < v * (scale * ONE) + scale * ONE
    ensures v * scale * ONE * ONE <= whole * price < (v + 1) * scale * ONE * ONE + price * ONE + 1
  {
    Scale(weighted * ONE, whole, price);
    Scale(whole, weighted * ONE + ONE, price);
    assert (weighted * ONE + ONE) * price == weighted * price * ONE + price * ONE;
    assert weighted * ONE * price == weighted * price * ONE;
    assert v * (scale * ONE) == v * scale * ONE;
    assert (v + 1) * scale == v * scale + scale;
    assert v * scale <= priced < v * scale + scale;
  }

  /** An amount is the exact quotient, rounded down once: powers of ten are exact. */
  lemma AmountBounds(value: int, price: int, decimals: nat)
    requires 0 <= value && 0 < price && CalcAmount(value, price, decimals).Ok?
    ensures var q := CalcAmount(value, price, decimals).value;
            0 <= q && q * price <= value * Pow10(decimals) * ONE < q * price + price
  {
    hide Pow10;
    var scaled := value * Pow10(decimals);
    assert value * (Pow10(decimals) * ONE) == scaled * ONE;
    assert Product(value, Pow10(decimals) * ONE) == scaled;
    Scale(0, value, Pow10(decimals));
    QuotientBounds(scaled, price);
  }
}
