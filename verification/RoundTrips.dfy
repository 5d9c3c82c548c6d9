/** Paying in and taking everything out again. */
module RoundTrips {
  import opened FixedPoint
  import opened Positions

  /** No shares on either side. */
  predicate Fresh(p: Position) {
    p.balance.assetShares == 0 && p.balance.liabilityShares == 0
  }

  /** A second claim at the same time yields nothing. */
  lemma ClaimAgain(p: Position, now: nat)
    requires p.Sound() && p.balance.lastUpdate == now && p.ClaimEmissions(now).Ok?
    ensures p.ClaimEmissions(now).value == p
  {
    EmissionsBaseNonNegative(p);
    if p.EmissionsBase().value.Some? {
      EmissionsAre(0, p.EmissionsBase().value.value, p.bank.mintDecimals, p.bank.emissionsRate);
    }
  }

  /** `d` tokens in shares of `value`, and the shares in tokens. */
  lemma ThereAndBack(d: nat, value: int)
    requires 0 < value
    ensures var shares := Truncated(d * ONE * ONE, value);
            var amount := Product(shares, value);
            && 0 <= shares && d * ONE * ONE - value < shares * value <= d * ONE * ONE
            && 0 <= amount <= d * ONE
            && (amount == d * ONE <==> d * ONE * ONE % value == 0)
            && (value <= ONE * ONE ==> (d - 1) * ONE <= amount)
            && (value <= ONE * ONE - ONE ==> (d - 1) * ONE < amount)
  {
    var shares := Truncated(d * ONE * ONE, value);
    QuotientBounds(d * ONE, value);
    ProductBounds(shares, value);
    assert d * ONE * ONE == value * (d * ONE * ONE / value) + d * ONE * ONE % value;
  }

  /** A deposit of `d` tokens withdrawn at once comes back whole exactly when `d`
      is a whole number of shares, and otherwise one token short as long as a
      share is worth at most 2^48 tokens; the fraction goes to insurance and the
      bank is as before. */
  lemma DepositThenWithdrawAll(p: Position, d: nat, kind: IncreaseType, now: nat)
    requires p.Sound() && Backed(p) && Fresh(p)
    requires p.Increase(d * ONE, kind, now).Ok? && p.Increase(d * ONE, kind, now).value.WithdrawAll(now).Ok?
    ensures var (r, paid) := p.Increase(d * ONE, kind, now).value.WithdrawAll(now).value;
            var value := p.bank.assetShareValue;
            var fraction := r.bank.insuranceFees - p.bank.insuranceFees;
            && r == Position(p.bank.(insuranceFees := p.bank.insuranceFees + fraction), EMPTY_BALANCE)
            && 0 <= fraction < ONE
            && (paid == d <==> d * ONE * ONE % value == 0)
            && (value <= ONE * ONE ==> d - 1 <= paid)
            && paid * ONE + fraction <= d * ONE < paid * ONE + fraction + value / ONE + 2
  {
    hide Position.Raise, Position.TakeAll, Position.ClaimEmissions, Truncated, Product;
    var value := p.bank.assetShareValue;
    ClaimMoves(p, now);
    NothingOwed(p, now);
    var c := p.ClaimEmissions(now).value;
    RaiseIs(c, d * ONE, kind);
    RaiseKeepsSound(c, d * ONE, kind);
    ZeroProduct(c.bank.liabilityShareValue);
    var shares := Truncated(d * ONE * ONE, value);
    ThereAndBack(d, value);
    var q := c.Raise(d * ONE, kind).value;
    assert q.balance.assetShares == shares && q.bank.totalAssetShares == p.bank.totalAssetShares + shares;
    ClaimAgain(q, now);
    TakeAllIs(q);
    var amount := Product(shares, value);
    LeftBehind(d, shares, value, amount);
  }

  lemma NothingOwed(p: Position, now: nat)
    requires p.Sound() && Fresh(p) && p.ClaimEmissions(now).Ok?
    ensures p.ClaimEmissions(now).value == p.(balance := p.balance.(lastUpdate := now))
  {
  }

  lemma ZeroProduct(value: int)
    requires 0 < value
    ensures Product(0, value) == 0 && Truncated(0 * ONE, value) == 0
  {
    DivisionIs(0, value, 0);
  }

  lemma LeftBehind(d: nat, shares: int, value: int, amount: int)
    requires 0 < value && IsProduct(shares, value, amount) && d * ONE * ONE - value < shares * value
    ensures d * ONE < amount + value / ONE + 2
  {
    DivisionBounds(value, ONE);
  }

  /** Borrowing `d` tokens and repaying them at once costs at most `d`, and exactly
      `d` as long as a share is worth less than 2^48 - 1 tokens; insurance gets
      what rounding left over. */
  lemma BorrowThenRepayAll(p: Position, d: nat, kind: DecreaseType, now: nat)
    requires p.Sound() && Backed(p) && Fresh(p)
    requires p.Decrease(d * ONE, kind, now).Ok? && p.Decrease(d * ONE, kind, now).value.RepayAll(now).Ok?
    ensures var (r, paid) := p.Decrease(d * ONE, kind, now).value.RepayAll(now).value;
            var value := p.bank.liabilityShareValue;
            var fraction := r.bank.insuranceFees - p.bank.insuranceFees;
            && r == Position(p.bank.(insuranceFees := p.bank.insuranceFees + fraction), EMPTY_BALANCE)
            && 0 <= fraction < ONE
            && paid <= d
            && (value <= ONE * ONE - ONE ==> paid == d)
            && paid * ONE - fraction <= d * ONE < paid * ONE - fraction + value / ONE + 2
  {
    hide Position.Lower, Position.PayAll, Position.ClaimEmissions, Truncated, Product;
    var value := p.bank.liabilityShareValue;
    ClaimMoves(p, now);
    NothingOwed(p, now);
    var c := p.ClaimEmissions(now).value;
    LowerIs(c, d * ONE, kind);
    LowerKeepsSound(c, d * ONE, kind);
    ZeroProduct(c.bank.assetShareValue);
    var shares := Truncated(d * ONE * ONE, value);
    ThereAndBack(d, value);
    var q := c.Lower(d * ONE, kind).value;
    assert q.balance.liabilityShares == shares && q.bank.totalLiabilityShares == p.bank.totalLiabilityShares + shares;
    ClaimAgain(q, now);
    PayAllIs(q);
    LeftBehind(d, shares, value, Product(shares, value));
  }
}
