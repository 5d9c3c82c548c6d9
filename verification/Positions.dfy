/** One user's balance in one bank, and the operations that move tokens between
    the two. */
module Positions {
  import opened Results
  import opened FixedPoint
  import opened Interest
  import opened Valuation
  import opened Banks

  const MIN_EMISSIONS_START_TIME: nat := 1_681_989_983

  datatype Side = Assets | Liabilities

  datatype BalanceState = BalanceState(
    active: bool, bankPk: nat, assetShares: int, liabilityShares: int,
    emissionsOutstanding: int, lastUpdate: nat)
  {
    predicate IsEmpty(side: Side) {
      (if side == Assets then assetShares else liabilityShares) < EMPTY_BALANCE_THRESHOLD
    }

    /** Which side the balance is on; having both is a panic. */
    function GetSide(): Result<Option<Side>> {
      if !IsEmpty(Assets) && !IsEmpty(Liabilities) then Err(Panic)
      else if !IsEmpty(Liabilities) then Ok(Some(Liabilities))
      else if !IsEmpty(Assets) then Ok(Some(Assets))
      else Ok(None)
    }

    function Close(): Result<BalanceState> {
      var _ :- Check(emissionsOutstanding < ONE, CannotCloseOutstandingEmissions);
      Ok(EMPTY_BALANCE)
    }

    /** What every operation maintains: a deposit has at most one ulp of debt left. */
    predicate Sound() {
      && 0 <= assetShares && 0 <= liabilityShares && 0 <= emissionsOutstanding
      && (!IsEmpty(Assets) ==> liabilityShares <= 1)
    }
  }

  const EMPTY_BALANCE := BalanceState(false, 0, 0, 0, 0, 0)

  datatype IncreaseType = AnyIncrease | RepayOnly | DepositOnly | BypassDepositLimit

  datatype DecreaseType = AnyDecrease | WithdrawOnly | BorrowOnly | BypassBorrowLimit

  function CalcEmissions(period: int, amount: int, decimals: nat, rate: int): Result<int> {
    var scale :- Exp10(decimals);
    var whole :- CheckedDiv(amount, scale);
    EmissionsOn(period, whole, rate)
  }

  /** Emissions on `whole` tokens. */
  function EmissionsOn(period: int, whole: int, rate: int): Result<int> {
    var x :- CheckedMul(period, whole);
    var y :- CheckedDiv(x, SECONDS_PER_YEAR);
    CheckedMul(y, rate)
  }

  datatype Position = Position(bank: BankState, balance: BalanceState) {

    predicate Sound() {
      bank.Healthy() && balance.Sound()
    }

    /** The amount that earns emissions, if any does. */
    function EmissionsBase(): Result<Option<int>> {
      var side :- balance.GetSide();
      if side == Some(Assets) && bank.lendingEmissions then
        var amount :- bank.AssetAmount(balance.assetShares);
        Ok(Some(amount))
      else if side == Some(Liabilities) && bank.borrowEmissions then
        var amount :- bank.LiabilityAmount(balance.liabilityShares);
        Ok(Some(amount))
      else
        Ok(None)
    }

    function ClaimEmissions(now: nat): Result<Position> {
      var amount :- EmissionsBase();
      if amount == None then Ok(this.(balance := balance.(lastUpdate := now))) else
      var last := if balance.lastUpdate < MIN_EMISSIONS_START_TIME then now else balance.lastUpdate;
      var _ :- Check(last <= now, MathError);
      var emissions :- CalcEmissions((now - last) * ONE, amount.value, bank.mintDecimals, bank.emissionsRate * ONE);
      var capped := Min(emissions, bank.emissionsRemaining);
      var outstanding :- Checked(balance.emissionsOutstanding + capped);
      var remaining :- Checked(bank.emissionsRemaining - capped);
      Ok(Position(bank.(emissionsRemaining := remaining),
                  balance.(emissionsOutstanding := outstanding, lastUpdate := now)))
    }

    /** Pay out whole tokens of the outstanding emissions. */
    function PayEmissions(): Result<(Position, nat)> {
      var whole := Floor(balance.emissionsOutstanding);
      var paid :- ToU64(whole);
      Ok((this.(balance := balance.(emissionsOutstanding := balance.emissionsOutstanding - whole)), paid))
    }

    function SettleEmissions(now: nat): Result<(Position, nat)> {
      var p :- ClaimEmissions(now);
      p.PayEmissions()
    }

    /** `increase_balance_internal` after emissions are claimed: repay first,
        deposit what is left. */
    function Raise(delta: int, kind: IncreaseType): Result<Position> {
      var debt :- bank.LiabilityAmount(balance.liabilityShares);
      var rest :- Checked(delta - debt);
      var repaid, deposited := Min(debt, delta), Max(rest, 0);
      var _ :- Check(kind == RepayOnly ==> IsZeroWithTolerance(deposited), OperationRepayOnly);
      var _ :- Check(kind == DepositOnly ==> IsZeroWithTolerance(repaid), OperationDepositOnly);
      var _ :- bank.AssertOperational(IsPositiveWithTolerance(deposited));
      var gained :- bank.AssetShares(deposited);
      var assetShares :- Checked(balance.assetShares + gained);
      var bank1 :- bank.ChangeAssetShares(gained, kind == BypassDepositLimit);
      var lost :- bank.LiabilityShares(repaid);
      var liabilityShares :- Checked(balance.liabilityShares - lost);
      var bank2 :- bank1.ChangeLiabilityShares(-lost, true);
      Ok(Position(bank2, balance.(assetShares := assetShares, liabilityShares := liabilityShares)))
    }

    /** `decrease_balance_internal` after emissions are claimed: withdraw first,
        borrow what is missing. */
    function Lower(delta: int, kind: DecreaseType): Result<Position> {
      var held :- bank.AssetAmount(balance.assetShares);
      var rest :- Checked(delta - held);
      var withdrawn, borrowed := Min(held, delta), Max(rest, 0);
      var _ :- Check(kind == WithdrawOnly ==> IsZeroWithTolerance(borrowed), OperationWithdrawOnly);
      var _ :- Check(kind == BorrowOnly ==> IsZeroWithTolerance(withdrawn), OperationBorrowOnly);
      var _ :- bank.AssertOperational(IsPositiveWithTolerance(borrowed));
      var lost :- bank.AssetShares(withdrawn);
      var assetShares :- Checked(balance.assetShares - lost);
      var bank1 :- bank.ChangeAssetShares(-lost, false);
      var gained :- bank.LiabilityShares(borrowed);
      var liabilityShares :- Checked(balance.liabilityShares + gained);
      var bank2 :- bank1.ChangeLiabilityShares(gained, kind == BypassBorrowLimit);
      var _ :- bank2.CheckUtilizationRatio();
      Ok(Position(bank2, balance.(assetShares := assetShares, liabilityShares := liabilityShares)))
    }

    function Increase(delta: int, kind: IncreaseType, now: nat): Result<Position> {
      var p :- ClaimEmissions(now);
      p.Raise(delta, kind)
    }

    function Decrease(delta: int, kind: DecreaseType, now: nat): Result<Position> {
      var p :- ClaimEmissions(now);
      p.Lower(delta, kind)
    }

    /** The rest of `withdraw_all` once emissions are claimed. */
    function TakeAll(): Result<(Position, nat)> {
      var _ :- bank.AssertOperational(false);
      var assets :- bank.AssetAmount(balance.assetShares);
      var liabilities :- bank.LiabilityAmount(balance.liabilityShares);
      var _ :- Check(IsPositiveWithTolerance(assets), NoAssetFound);
      var _ :- Check(IsZeroWithTolerance(liabilities), NoAssetFound);
      var closed :- balance.Close();
      var bank1 :- bank.ChangeAssetShares(-balance.assetShares, false);
      var _ :- bank1.CheckUtilizationRatio();
      var insurance :- Checked(assets - Floor(assets) + bank1.insuranceFees);
      var paid :- ToU64(Floor(assets));
      Ok((Position(bank1.(insuranceFees := insurance), closed), paid))
    }

    /** The rest of `repay_all` once emissions are claimed. */
    function PayAll(): Result<(Position, nat)> {
      var _ :- bank.AssertOperational(false);
      var liabilities :- bank.LiabilityAmount(balance.liabilityShares);
      var assets :- bank.AssetAmount(balance.assetShares);
      var _ :- Check(IsPositiveWithTolerance(liabilities), NoLiabilityFound);
      var _ :- Check(IsZeroWithTolerance(assets), NoLiabilityFound);
      var closed :- balance.Close();
      var bank1 :- bank.ChangeLiabilityShares(-balance.liabilityShares, false);
      var due :- Checked(Ceil(liabilities));
      var insurance :- Checked(due - liabilities + bank1.insuranceFees);
      var paid :- ToU64(due);
      Ok((Position(bank1.(insuranceFees := insurance), closed), paid))
    }

    function WithdrawAll(now: nat): Result<(Position, nat)> {
      var p :- ClaimEmissions(now);
      p.TakeAll()
    }

    function RepayAll(now: nat): Result<(Position, nat)> {
      var p :- ClaimEmissions(now);
      p.PayAll()
    }

    function CloseBalance(now: nat): Result<Position> {
      var p :- ClaimEmissions(now);
      var liabilities :- p.bank.LiabilityAmount(p.balance.liabilityShares);
      var assets :- p.bank.AssetAmount(p.balance.assetShares);
      var _ :- Check(IsZeroWithTolerance(liabilities), IllegalBalanceState);
      var _ :- Check(IsZeroWithTolerance(assets), IllegalBalanceState);
      var closed :- p.balance.Close();
      Ok(p.(balance := closed))
    }
  }

  // ------------------------------------------------------- rounding of shares

  /** Shares for an amount no larger than what `shares` are worth: no more than
      `shares`, and what is left is less than one share when the amount is all
      of it, at most one ulp when a share is worth a token or more. */
  lemma SharesForAmount(shares: int, value: int, amount: int)
    requires 0 <= shares && 0 < value && 0 <= amount <= Product(shares, value)
    ensures var x := Truncated(amount * ONE, value);
            && 0 <= x <= shares
            && IsQuotient(amount, value, x)
            && (amount == Product(shares, value) ==> shares - x < ONE && (ONE <= value ==> shares - x <= 1))
  {
    var x := Truncated(amount * ONE, value);
    ProductBounds(shares, value);
    QuotientBounds(amount, value);
    Cancel(x, shares + 1, value);
    if amount == Product(shares, value) {
      var r := shares - x;
      assert r * value < ONE + value;
      if value == 1 {
        assert x == shares / ONE * ONE;
      } else if ONE <= r {
        Scale(ONE, r, value);
        Scale(2, value, ONE - 1);
        assert false;
      }
      if ONE <= value && 2 <= r {
        Scale(2, r, value);
        assert false;
      }
    }
  }

  // ---------------------------------------------------------------- emissions

  /** Emissions of whole seconds at a whole yearly rate round only once. */
  lemma EmissionsOnAre(seconds: nat, whole: int, rate: nat)
    requires 0 <= whole && EmissionsOn(seconds * ONE, whole, rate * ONE).Ok?
    ensures 0 <= seconds * whole / YEAR * rate
    ensures EmissionsOn(seconds * ONE, whole, rate * ONE).value == seconds * whole / YEAR * rate
  {
    TimesSeconds(whole, seconds);
    assert whole * (seconds * ONE) == seconds * ONE * whole;
    Scale(0, whole, seconds);
    PerYear(seconds * whole);
    var y := seconds * whole / YEAR;
    TimesSeconds(y, rate);
    Scale(0, y, rate);
  }

  lemma EmissionsAre(seconds: nat, amount: int, decimals: nat, rate: nat)
    requires 0 <= amount && CalcEmissions(seconds * ONE, amount, decimals, rate * ONE).Ok?
    ensures decimals < 24
    ensures var whole := Truncated(amount * ONE, Pow10(decimals) * ONE);
            && 0 <= whole && 0 <= seconds * whole / YEAR * rate
            && CalcEmissions(seconds * ONE, amount, decimals, rate * ONE).value == seconds * whole / YEAR * rate
  {
    QuotientBounds(amount, Pow10(decimals) * ONE);
    EmissionsOnAre(seconds, Truncated(amount * ONE, Pow10(decimals) * ONE), rate);
  }

  lemma EmissionsBaseNonNegative(p: Position)
    requires p.Sound()
    ensures p.balance.GetSide().Ok?
    ensures p.EmissionsBase().Ok? && p.EmissionsBase().value.Some? ==> 0 <= p.EmissionsBase().value.value
  {
    ProductBounds(p.balance.assetShares, p.bank.assetShareValue);
    ProductBounds(p.balance.liabilityShares, p.bank.liabilityShareValue);
  }

  /** `q` is `p` after claiming `claimed` emissions. */
  predicate Claimed(p: Position, q: Position, claimed: int, now: nat) {
    && 0 <= claimed <= p.bank.emissionsRemaining
    && q == Position(p.bank.(emissionsRemaining := p.bank.emissionsRemaining - claimed),
                     p.balance.(emissionsOutstanding := p.balance.emissionsOutstanding + claimed,
                                lastUpdate := now))
  }

  /** Claiming moves emissions from the bank to the balance and nothing else. */
  lemma ClaimMoves(p: Position, now: nat)
    requires p.Sound() && p.ClaimEmissions(now).Ok?
    ensures var q := p.ClaimEmissions(now).value;
            && q.Sound()
            && Claimed(p, q, q.balance.emissionsOutstanding - p.balance.emissionsOutstanding, now)
  {
    EmissionsBaseNonNegative(p);
    if p.EmissionsBase().value.Some? {
      var last := if p.balance.lastUpdate < MIN_EMISSIONS_START_TIME then now else p.balance.lastUpdate;
      EmissionsAre(now - last, p.EmissionsBase().value.value, p.bank.mintDecimals, p.bank.emissionsRate);
    }
  }

  /** Settling pays the whole tokens and keeps the fraction outstanding. */
  lemma PayEmissionsMoves(p: Position)
    requires p.Sound() && p.PayEmissions().Ok?
    ensures var (q, paid) := p.PayEmissions().value;
            && q.Sound() && 0 <= q.balance.emissionsOutstanding < ONE
            && q == p.(balance := p.balance.(emissionsOutstanding := p.balance.emissionsOutstanding - paid * ONE))
  {
  }

  // ------------------------------------------------------- moving tokens

  /** `q` is `p` with `assets` and `liabilities` shares added to balance and
      bank alike. */
  predicate Moved(p: Position, q: Position, assets: int, liabilities: int) {
    q == Position(p.bank.(totalAssetShares := p.bank.totalAssetShares + assets,
                          totalLiabilityShares := p.bank.totalLiabilityShares + liabilities),
                  p.balance.(assetShares := p.balance.assetShares + assets,
                             liabilityShares := p.balance.liabilityShares + liabilities))
  }

  /** The bank's totals include this balance. */
  predicate Backed(p: Position) {
    p.balance.assetShares <= p.bank.totalAssetShares && p.balance.liabilityShares <= p.bank.totalLiabilityShares
  }

  /** What `Raise` moves: shares deposited, shares repaid. */
  function RaiseShares(p: Position, delta: int): (int, int)
    requires p.bank.assetShareValue != 0 && p.bank.liabilityShareValue != 0
  {
    var debt := Product(p.balance.liabilityShares, p.bank.liabilityShareValue);
    (Truncated(Max(delta - debt, 0) * ONE, p.bank.assetShareValue),
     Truncated(Min(debt, delta) * ONE, p.bank.liabilityShareValue))
  }

  lemma RaiseIs(p: Position, delta: int, kind: IncreaseType)
    requires p.Sound() && p.Raise(delta, kind).Ok?
    ensures var (x, y) := RaiseShares(p, delta);
            Moved(p, p.Raise(delta, kind).value, x, -y)
  {
  }

  /** Value paid in against shares booked: the shares are worth no more than
      was paid in, and less than one ulp of shares on each side below it. */
  lemma RaiseRounding(p: Position, delta: int)
    requires p.Sound() && 0 <= delta
    ensures var (x, y) := RaiseShares(p, delta);
            var debt := Product(p.balance.liabilityShares, p.bank.liabilityShareValue);
            && 0 <= x && 0 <= y <= p.balance.liabilityShares
            && (delta < debt ==> x == 0)
            && (debt <= delta ==> p.balance.liabilityShares - y <= 1)
            && 0 <= delta * ONE - (x * p.bank.assetShareValue + y * p.bank.liabilityShareValue)
                 < p.bank.assetShareValue + p.bank.liabilityShareValue
  {
    var debt := Product(p.balance.liabilityShares, p.bank.liabilityShareValue);
    ProductBounds(p.balance.liabilityShares, p.bank.liabilityShareValue);
    SharesForAmount(p.balance.liabilityShares, p.bank.liabilityShareValue, Min(debt, delta));
    QuotientBounds(Max(delta - debt, 0), p.bank.assetShareValue);
    if delta < debt {
      DivisionIs(0, p.bank.assetShareValue, 0);
    }
  }

  /** Paying in keeps a position sound, and one that was a debt keeps at most
      one ulp of debt once it becomes a deposit. */
  lemma RaiseKeepsSound(p: Position, delta: int, kind: IncreaseType)
    requires p.Sound() && Backed(p) && 0 <= delta && p.Raise(delta, kind).Ok?
    ensures p.Raise(delta, kind).value.Sound()
    ensures var q := p.Raise(delta, kind).value;
            p.balance.assetShares < q.balance.assetShares ==> q.balance.liabilityShares <= 1
  {
    RaiseIs(p, delta, kind);
    RaiseRounding(p, delta);
  }

  function LowerShares(p: Position, delta: int): (int, int)
    requires p.bank.assetShareValue != 0 && p.bank.liabilityShareValue != 0
  {
    var held := Product(p.balance.assetShares, p.bank.assetShareValue);
    (Truncated(Min(held, delta) * ONE, p.bank.assetShareValue),
     Truncated(Max(delta - held, 0) * ONE, p.bank.liabilityShareValue))
  }

  lemma LowerIs(p: Position, delta: int, kind: DecreaseType)
    requires p.Sound() && p.Lower(delta, kind).Ok?
    ensures var (x, y) := LowerShares(p, delta);
            Moved(p, p.Lower(delta, kind).value, -x, y)
  {
  }

  lemma LowerRounding(p: Position, delta: int)
    requires p.Sound() && 0 <= delta
    ensures var (x, y) := LowerShares(p, delta);
            var held := Product(p.balance.assetShares, p.bank.assetShareValue);
            && 0 <= y && 0 <= x <= p.balance.assetShares
            && (delta < held ==> y == 0)
            && (held <= delta ==> p.balance.assetShares - x < ONE
                                  && (ONE <= p.bank.assetShareValue ==> p.balance.assetShares - x <= 1))
            && 0 <= delta * ONE - (x * p.bank.assetShareValue + y * p.bank.liabilityShareValue)
                 < p.bank.assetShareValue + p.bank.liabilityShareValue
  {
    var held := Product(p.balance.assetShares, p.bank.assetShareValue);
    ProductBounds(p.balance.assetShares, p.bank.assetShareValue);
    SharesForAmount(p.balance.assetShares, p.bank.assetShareValue, Min(held, delta));
    QuotientBounds(Max(delta - held, 0), p.bank.liabilityShareValue);
    if delta < held {
      DivisionIs(0, p.bank.liabilityShareValue, 0);
    }
  }

  /** Taking out keeps a position sound; one that was a deposit keeps less than
      one share once it becomes a debt, and at most one ulp when a share is
      worth a token or more. */
  lemma LowerKeepsSound(p: Position, delta: int, kind: DecreaseType)
    requires p.Sound() && Backed(p) && 0 <= delta && p.Lower(delta, kind).Ok?
    ensures p.Lower(delta, kind).value.Sound()
    ensures var q := p.Lower(delta, kind).value;
            p.balance.liabilityShares < q.balance.liabilityShares ==>
              q.balance.assetShares < ONE && (ONE <= p.bank.assetShareValue ==> q.balance.assetShares <= 1)
  {
    LowerIs(p, delta, kind);
    LowerRounding(p, delta);
  }

  /** Paying in respects the limits set on it: a paused bank takes nothing, only
      dust is deposited by a repayment or in a bank that is being reduced, only
      dust is repaid by a pure deposit, and deposits stay below the limit. */
  lemma RaiseRespects(p: Position, delta: int, kind: IncreaseType)
    requires p.Sound() && 0 <= delta && p.Raise(delta, kind).Ok?
    ensures var (q, c) := (p.Raise(delta, kind).value, p.bank.config);
            var gained, lost := q.balance.assetShares - p.balance.assetShares,
                                p.balance.liabilityShares - q.balance.liabilityShares;
            && c.operationalState != Paused
            && (kind == RepayOnly || c.operationalState == ReduceOnly ==>
                  gained * p.bank.assetShareValue <= ZERO_AMOUNT_THRESHOLD * ONE)
            && (kind == DepositOnly ==> lost * p.bank.liabilityShareValue <= ZERO_AMOUNT_THRESHOLD * ONE)
            && (0 < gained && kind != BypassDepositLimit && c.depositLimit != U64_MAX ==>
                  Product(q.bank.totalAssetShares, q.bank.assetShareValue) < c.depositLimit * ONE)
  {
    hide Truncated, Product;
    RaiseIs(p, delta, kind);
    var debt := Product(p.balance.liabilityShares, p.bank.liabilityShareValue);
    ProductBounds(p.balance.liabilityShares, p.bank.liabilityShareValue);
    QuotientBounds(Max(delta - debt, 0), p.bank.assetShareValue);
    QuotientBounds(Min(debt, delta), p.bank.liabilityShareValue);
  }

  /** Taking out respects the limits set on it, likewise, and never leaves a bank
      with more debts than deposits. */
  lemma LowerRespects(p: Position, delta: int, kind: DecreaseType)
    requires p.Sound() && 0 <= delta && p.Lower(delta, kind).Ok?
    ensures var (q, c) := (p.Lower(delta, kind).value, p.bank.config);
            var lost, gained := p.balance.assetShares - q.balance.assetShares,
                                q.balance.liabilityShares - p.balance.liabilityShares;
            var debts := Product(q.bank.totalLiabilityShares, q.bank.liabilityShareValue);
            && c.operationalState != Paused
            && (kind == WithdrawOnly || c.operationalState == ReduceOnly ==>
                  gained * p.bank.liabilityShareValue <= ZERO_AMOUNT_THRESHOLD * ONE)
            && (kind == BorrowOnly ==> lost * p.bank.assetShareValue <= ZERO_AMOUNT_THRESHOLD * ONE)
            && (0 < gained && kind != BypassBorrowLimit && c.borrowLimit != U64_MAX ==> debts < c.borrowLimit * ONE)
            && debts <= Product(q.bank.totalAssetShares, q.bank.assetShareValue)
  {
    hide Truncated, Product;
    LowerIs(p, delta, kind);
    var held := Product(p.balance.assetShares, p.bank.assetShareValue);
    ProductBounds(p.balance.assetShares, p.bank.assetShareValue);
    QuotientBounds(Min(held, delta), p.bank.assetShareValue);
    QuotientBounds(Max(delta - held, 0), p.bank.liabilityShareValue);
  }

  /** Withdrawing everything pays the whole tokens and books the fraction to
      insurance, which leaves out less than one ulp of value. */
  lemma TakeAllIs(p: Position)
    requires p.Sound() && p.TakeAll().Ok?
    ensures var (q, paid) := p.TakeAll().value;
            var amount := Product(p.balance.assetShares, p.bank.assetShareValue);
            && q == Position(p.bank.(totalAssetShares := p.bank.totalAssetShares - p.balance.assetShares,
                                     insuranceFees := p.bank.insuranceFees + amount - paid * ONE),
                             EMPTY_BALANCE)
            && paid * ONE <= amount < paid * ONE + ONE
            && IsProduct(p.balance.assetShares, p.bank.assetShareValue, amount)
            && Product(p.balance.liabilityShares, p.bank.liabilityShareValue) < ZERO_AMOUNT_THRESHOLD
            && p.balance.emissionsOutstanding < ONE
  {
    ProductBounds(p.balance.assetShares, p.bank.assetShareValue);
  }

  lemma PayAllIs(p: Position)
    requires p.Sound() && p.PayAll().Ok?
    ensures var (q, paid) := p.PayAll().value;
            var amount := Product(p.balance.liabilityShares, p.bank.liabilityShareValue);
            && q == Position(p.bank.(totalLiabilityShares := p.bank.totalLiabilityShares - p.balance.liabilityShares,
                                     insuranceFees := p.bank.insuranceFees + paid * ONE - amount),
                             EMPTY_BALANCE)
            && paid * ONE - ONE < amount <= paid * ONE
            && IsProduct(p.balance.liabilityShares, p.bank.liabilityShareValue, amount)
            && Product(p.balance.assetShares, p.bank.assetShareValue) < ZERO_AMOUNT_THRESHOLD
            && p.balance.emissionsOutstanding < ONE
  {
    hide Product;
    ProductBounds(p.balance.liabilityShares, p.bank.liabilityShareValue);
  }
}
