/** A liquidation is not held up by limits: neither the deposit limit of the collateral's bank
    nor the borrow limit of the debt's bank matters to its swap. */
module Limits {
  import opened Results
  import opened FixedPoint
  import opened Valuation
  import opened Banks
  import opened Positions
  import opened Ledger
  import opened Instructions
  import opened Effects

  function SetLimits(bank: BankState, deposits: nat, borrows: nat): BankState {
    bank.(config := bank.config.(depositLimit := deposits, borrowLimit := borrows))
  }

  /** The market with other limits on bank `pk`. */
  function Limited(m: Market, pk: nat, deposits: nat, borrows: nat): Market {
    if pk !in m.pools then m else
    m.PutPool(pk, m.pools[pk].(bank := SetLimits(m.pools[pk].bank, deposits, borrows)))
  }

  function LimitedResult(r: Result<Market>, pk: nat, deposits: nat, borrows: nat): Result<Market> {
    match r
    case Ok(m) => Ok(Limited(m, pk, deposits, borrows))
    case Err(e) => Err(e)
  }

  function LimitedPosition(p: Position, deposits: nat, borrows: nat): Position {
    p.(bank := SetLimits(p.bank, deposits, borrows))
  }

  function LimitedPositionResult(r: Result<Position>, deposits: nat, borrows: nat): Result<Position> {
    match r
    case Ok(p) => Ok(LimitedPosition(p, deposits, borrows))
    case Err(e) => Err(e)
  }

  // ------------------------------------------------------------ one position

  lemma ClaimUnlimited(p: Position, now: nat, deposits: nat, borrows: nat)
    ensures LimitedPosition(p, deposits, borrows).ClaimEmissions(now)
            == LimitedPositionResult(p.ClaimEmissions(now), deposits, borrows)
  {
    hide CalcEmissions, CheckedMul;
  }

  function LimitedBankResult(r: Result<BankState>, deposits: nat, borrows: nat): Result<BankState> {
    match r
    case Ok(b) => Ok(SetLimits(b, deposits, borrows))
    case Err(e) => Err(e)
  }

  lemma AssetsUnlimited(bank: BankState, shares: int, bypass: bool, deposits: nat, borrows: nat)
    requires shares <= 0 || bypass || deposits == bank.config.depositLimit
    ensures SetLimits(bank, deposits, borrows).ChangeAssetShares(shares, bypass)
            == LimitedBankResult(bank.ChangeAssetShares(shares, bypass), deposits, borrows)
  {
    hide CheckedMul;
  }

  lemma LiabilitiesUnlimited(bank: BankState, shares: int, bypass: bool, deposits: nat, borrows: nat)
    requires shares <= 0 || bypass || borrows == bank.config.borrowLimit
    ensures SetLimits(bank, deposits, borrows).ChangeLiabilityShares(shares, bypass)
            == LimitedBankResult(bank.ChangeLiabilityShares(shares, bypass), deposits, borrows)
  {
    hide CheckedMul;
  }

  lemma UtilizationUnlimited(bank: BankState, deposits: nat, borrows: nat)
    ensures SetLimits(bank, deposits, borrows).CheckUtilizationRatio() == bank.CheckUtilizationRatio()
  {
    hide CheckedMul;
  }

  lemma ConfigKept(bank: BankState, shares: int, bypass: bool)
    requires bank.ChangeAssetShares(shares, bypass).Ok?
    ensures bank.ChangeAssetShares(shares, bypass).value.config == bank.config
  {
    hide CheckedMul;
  }

  /** Taking out meets no deposit limit, and no borrow limit if that is bypassed. */
  lemma LowerUnlimited(p: Position, delta: int, kind: DecreaseType, deposits: nat, borrows: nat)
    requires p.Sound() && 0 <= delta && (kind == BypassBorrowLimit || borrows == p.bank.config.borrowLimit)
    ensures LimitedPosition(p, deposits, borrows).Lower(delta, kind)
            == LimitedPositionResult(p.Lower(delta, kind), deposits, borrows)
  {
    hide Checked, CheckedMul, CheckedDiv, BankState.ChangeAssetShares, BankState.ChangeLiabilityShares,
         BankState.CheckUtilizationRatio, IsZeroWithTolerance, IsPositiveWithTolerance, BankState.Healthy;
    var held := p.bank.AssetAmount(p.balance.assetShares);
    if held.Ok? && Checked(delta - held.value).Ok? {
      AmountsNotNegative(p);
      CheckedIs(delta - held.value);
      var lost, gained := p.bank.AssetShares(Min(held.value, delta)), p.bank.LiabilityShares(Max(delta - held.value, 0));
      SharesNotNegative(Min(held.value, delta), p.bank.assetShareValue);
      SharesNotNegative(Max(delta - held.value, 0), p.bank.liabilityShareValue);
      if lost.Ok? && p.bank.ChangeAssetShares(-lost.value, false).Ok? && gained.Ok? {
        var bank1 := p.bank.ChangeAssetShares(-lost.value, false).value;
        ConfigKept(p.bank, -lost.value, false);
        LiabilitiesUnlimited(bank1, gained.value, kind == BypassBorrowLimit, deposits, borrows);
        if bank1.ChangeLiabilityShares(gained.value, kind == BypassBorrowLimit).Ok? {
          UtilizationUnlimited(bank1.ChangeLiabilityShares(gained.value, kind == BypassBorrowLimit).value, deposits,
                               borrows);
        }
      }
      if lost.Ok? {
        AssetsUnlimited(p.bank, -lost.value, false, deposits, borrows);
      }
    }
  }

  lemma CheckedIs(x: int)
    requires Checked(x).Ok?
    ensures Checked(x).value == x
  {
  }

  lemma AmountsNotNegative(p: Position)
    requires p.Sound()
    ensures 0 < p.bank.assetShareValue && 0 < p.bank.liabilityShareValue
    ensures var held := p.bank.AssetAmount(p.balance.assetShares); held.Ok? ==> 0 <= held.value
    ensures var debt := p.bank.LiabilityAmount(p.balance.liabilityShares); debt.Ok? ==> 0 <= debt.value
  {
    ProductBounds(p.balance.assetShares, p.bank.assetShareValue);
    ProductBounds(p.balance.liabilityShares, p.bank.liabilityShareValue);
  }

  lemma SharesNotNegative(amount: int, value: int)
    requires 0 <= amount && 0 < value
    ensures CheckedDiv(amount, value).Ok? ==> 0 <= CheckedDiv(amount, value).value
  {
    QuotientBounds(amount, value);
  }

  /** Paying in meets no borrow limit, and no deposit limit if that is bypassed. */
  lemma RaiseUnlimited(p: Position, delta: int, kind: IncreaseType, deposits: nat, borrows: nat)
    requires p.Sound() && 0 <= delta && (kind == BypassDepositLimit || deposits == p.bank.config.depositLimit)
    ensures LimitedPosition(p, deposits, borrows).Raise(delta, kind)
            == LimitedPositionResult(p.Raise(delta, kind), deposits, borrows)
  {
    hide Checked, CheckedMul, CheckedDiv, BankState.ChangeAssetShares, BankState.ChangeLiabilityShares,
         IsZeroWithTolerance, IsPositiveWithTolerance, BankState.Healthy;
    var debt := p.bank.LiabilityAmount(p.balance.liabilityShares);
    if debt.Ok? && Checked(delta - debt.value).Ok? {
      AmountsNotNegative(p);
      CheckedIs(delta - debt.value);
      var gained, lost := p.bank.AssetShares(Max(delta - debt.value, 0)), p.bank.LiabilityShares(Min(debt.value, delta));
      SharesNotNegative(Min(debt.value, delta), p.bank.liabilityShareValue);
      if gained.Ok? {
        AssetsUnlimited(p.bank, gained.value, kind == BypassDepositLimit, deposits, borrows);
        var bank1 := p.bank.ChangeAssetShares(gained.value, kind == BypassDepositLimit);
        if bank1.Ok? && lost.Ok? {
          LiabilitiesUnlimited(bank1.value, -lost.value, true, deposits, borrows);
        }
      }
    }
  }

  lemma DecreaseUnlimited(p: Position, delta: int, kind: DecreaseType, now: nat, deposits: nat, borrows: nat)
    requires p.Sound() && 0 <= delta && (kind == BypassBorrowLimit || borrows == p.bank.config.borrowLimit)
    ensures LimitedPosition(p, deposits, borrows).Decrease(delta, kind, now)
            == LimitedPositionResult(p.Decrease(delta, kind, now), deposits, borrows)
  {
    hide Position.ClaimEmissions, Position.Lower;
    ClaimUnlimited(p, now, deposits, borrows);
    if p.ClaimEmissions(now).Ok? {
      ClaimMoves(p, now);
      LowerUnlimited(p.ClaimEmissions(now).value, delta, kind, deposits, borrows);
    }
  }

  lemma IncreaseUnlimited(p: Position, delta: int, kind: IncreaseType, now: nat, deposits: nat, borrows: nat)
    requires p.Sound() && 0 <= delta && (kind == BypassDepositLimit || deposits == p.bank.config.depositLimit)
    ensures LimitedPosition(p, deposits, borrows).Increase(delta, kind, now)
            == LimitedPositionResult(p.Increase(delta, kind, now), deposits, borrows)
  {
    hide Position.ClaimEmissions, Position.Raise;
    ClaimUnlimited(p, now, deposits, borrows);
    if p.ClaimEmissions(now).Ok? {
      ClaimMoves(p, now);
      RaiseUnlimited(p.ClaimEmissions(now).value, delta, kind, deposits, borrows);
    }
  }

  // -------------------------------------------------------------- one market

  /** A slot found in the one market is found in the other. */
  lemma PositionUnlimited(m: Market, a: nat, k: nat, create: bool, now: nat, pk: nat, deposits: nat, borrows: nat)
    requires pk in m.pools
    ensures var r, r' := PositionAt(m, a, k, create, now),
                         PositionAt(Limited(m, pk, deposits, borrows), a, k, create, now);
            && (r.Err? ==> r' == r)
            && (r.Ok? ==> r' == Ok((r.value.0, if k == pk then LimitedPosition(r.value.1, deposits, borrows)
                                               else r.value.1)))
  {
    hide SlotFor;
  }

  lemma PutUnlimited(m: Market, k: nat, bank: BankState, a: nat, i: nat, b: BalanceState, pk: nat, deposits: nat,
                     borrows: nat)
    requires k in m.pools && pk in m.pools && a < |m.accounts| && i < |m.accounts[a].balances|
    ensures var m1 := Limited(m, pk, deposits, borrows);
            var bank' := if k == pk then SetLimits(bank, deposits, borrows) else bank;
            m1.Put(k, m1.pools[k].(bank := bank'), a, i, b)
            == Limited(m.Put(k, m.pools[k].(bank := bank), a, i, b), pk, deposits, borrows)
  {
    var m1 := Limited(m, pk, deposits, borrows);
    var bank' := if k == pk then SetLimits(bank, deposits, borrows) else bank;
    assert m1.Put(k, m1.pools[k].(bank := bank'), a, i, b).pools
        == Limited(m.Put(k, m.pools[k].(bank := bank), a, i, b), pk, deposits, borrows).pools;
  }

  lemma PayOutUnlimited(m: Market, a: nat, k: nat, delta: int, kind: DecreaseType, create: bool, now: nat, pk: nat,
                        deposits: nat, borrows: nat)
    requires Inv(m) && pk in m.pools && 0 <= delta
    requires k == pk ==> kind == BypassBorrowLimit || borrows == m.pools[pk].bank.config.borrowLimit
    ensures PayOut(Limited(m, pk, deposits, borrows), a, k, delta, kind, create, now)
            == LimitedResult(PayOut(m, a, k, delta, kind, create, now), pk, deposits, borrows)
  {
    hide Inv, Position.Decrease, PositionAt, Limited, LimitedPosition, SlotFits;
    PositionUnlimited(m, a, k, create, now, pk, deposits, borrows);
    if PositionAt(m, a, k, create, now).Ok? {
      SlotSound(m, a, k, create, now);
      var (i, p) := PositionAt(m, a, k, create, now).value;
      if k == pk {
        DecreaseUnlimited(p, delta, kind, now, deposits, borrows);
      }
      if p.Decrease(delta, kind, now).Ok? {
        var q := p.Decrease(delta, kind, now).value;
        LimitedIs(q, deposits, borrows);
        PutUnlimited(m, k, q.bank, a, i, q.balance, pk, deposits, borrows);
      }
    }
  }

  lemma LimitedIs(p: Position, deposits: nat, borrows: nat)
    ensures LimitedPosition(p, deposits, borrows) == Position(SetLimits(p.bank, deposits, borrows), p.balance)
  {
  }

  lemma SlotSound(m: Market, a: nat, k: nat, create: bool, now: nat)
    requires Inv(m) && PositionAt(m, a, k, create, now).Ok?
    ensures k in m.pools && a < |m.accounts|
    ensures var (i, p) := PositionAt(m, a, k, create, now).value;
            i < |m.accounts[a].balances| && p.Sound() && p.bank == m.pools[k].bank
  {
    hide Inv, FindBalance;
    SlotForFits(m, k, a, create, now);
    PoolIsOk(m, k);
  }

  lemma PayInUnlimited(m: Market, a: nat, k: nat, delta: int, kind: IncreaseType, create: bool, now: nat, pk: nat,
                       deposits: nat, borrows: nat)
    requires Inv(m) && pk in m.pools && 0 <= delta
    requires k == pk ==> kind == BypassDepositLimit || deposits == m.pools[pk].bank.config.depositLimit
    ensures PayIn(Limited(m, pk, deposits, borrows), a, k, delta, kind, create, now)
            == LimitedResult(PayIn(m, a, k, delta, kind, create, now), pk, deposits, borrows)
  {
    hide Inv, Position.Increase, PositionAt, Limited, LimitedPosition, SlotFits;
    PositionUnlimited(m, a, k, create, now, pk, deposits, borrows);
    if PositionAt(m, a, k, create, now).Ok? {
      SlotSound(m, a, k, create, now);
      var (i, p) := PositionAt(m, a, k, create, now).value;
      if k == pk {
        IncreaseUnlimited(p, delta, kind, now, deposits, borrows);
      }
      if p.Increase(delta, kind, now).Ok? {
        var q := p.Increase(delta, kind, now).value;
        LimitedIs(q, deposits, borrows);
        PutUnlimited(m, k, q.bank, a, i, q.balance, pk, deposits, borrows);
      }
    }
  }

  lemma InsuranceFeeUnlimited(m: Market, k: nat, fee: int, pk: nat, deposits: nat, borrows: nat)
    requires pk in m.pools
    ensures BookInsuranceFee(Limited(m, pk, deposits, borrows), k, fee)
            == LimitedResult(BookInsuranceFee(m, k, fee), pk, deposits, borrows)
  {
    var r := BookInsuranceFee(m, k, fee);
    if r.Ok? {
      assert BookInsuranceFee(Limited(m, pk, deposits, borrows), k, fee).value.pools
          == Limited(r.value, pk, deposits, borrows).pools;
    }
  }

  // ------------------------------------------------------------ a liquidation

  /** Limits that the swap of a liquidation does not meet: the bank of the collateral keeps
      its borrow limit, the bank of the debt its deposit limit. */
  predicate Unmet(m: Market, pk: nat, assetPk: nat, debtPk: nat, deposits: nat, borrows: nat) {
    && pk in m.pools
    && (pk == assetPk ==> borrows == m.pools[pk].bank.config.borrowLimit)
    && (pk == debtPk ==> deposits == m.pools[pk].bank.config.depositLimit)
  }

  /** The swap of a liquidation succeeds or fails all the same under other limits of those
      kinds, and with the same outcome. */
  lemma LiquidationIgnoresLimits(m: Market, a: nat, b: nat, assetPk: nat, debtPk: nat, amount: nat, paid: int,
                                 received: int, now: nat, pk: nat, deposits: nat, borrows: nat)
    requires Inv(m) && 0 <= received && 0 <= paid && assetPk != debtPk
    requires Unmet(m, pk, assetPk, debtPk, deposits, borrows)
    ensures SwapPositions(Limited(m, pk, deposits, borrows), a, b, assetPk, debtPk, amount, paid, received, now)
            == LimitedResult(SwapPositions(m, a, b, assetPk, debtPk, amount, paid, received, now), pk, deposits, borrows)
  {
    hide Inv, PayIn, PayOut, BookInsuranceFee, Limited, Net;
    PayOutUnlimited(m, a, debtPk, paid, BypassBorrowLimit, true, now, pk, deposits, borrows);
    if PayOut(m, a, debtPk, paid, BypassBorrowLimit, true, now).Ok? {
      PayOutEffect(m, a, debtPk, paid, BypassBorrowLimit, true, now);
      var m1 := PayOut(m, a, debtPk, paid, BypassBorrowLimit, true, now).value;
      PayOutUnlimited(m1, b, assetPk, amount * ONE, WithdrawOnly, false, now, pk, deposits, borrows);
      if PayOut(m1, b, assetPk, amount * ONE, WithdrawOnly, false, now).Ok? {
        PayOutEffect(m1, b, assetPk, amount * ONE, WithdrawOnly, false, now);
        var m2 := PayOut(m1, b, assetPk, amount * ONE, WithdrawOnly, false, now).value;
        PaidOver(m2, a, b, assetPk, debtPk, amount, paid, received, now, pk, deposits, borrows);
      }
    }
  }

  /** The second half of the swap. */
  lemma PaidOver(m: Market, a: nat, b: nat, assetPk: nat, debtPk: nat, amount: nat, paid: int, received: int, now: nat,
                 pk: nat, deposits: nat, borrows: nat)
    requires Inv(m) && 0 <= received && assetPk != debtPk && Unmet(m, pk, assetPk, debtPk, deposits, borrows)
    ensures Rest(Limited(m, pk, deposits, borrows), a, b, assetPk, debtPk, amount, paid, received, now)
            == LimitedResult(Rest(m, a, b, assetPk, debtPk, amount, paid, received, now), pk, deposits, borrows)
  {
    hide Inv, PayIn, BookInsuranceFee, Limited, Net;
    PayInUnlimited(m, a, assetPk, amount * ONE, BypassDepositLimit, true, now, pk, deposits, borrows);
    if PayIn(m, a, assetPk, amount * ONE, BypassDepositLimit, true, now).Ok? {
      PayInEffect(m, a, assetPk, amount * ONE, BypassDepositLimit, true, now);
      var m1 := PayIn(m, a, assetPk, amount * ONE, BypassDepositLimit, true, now).value;
      PayInUnlimited(m1, b, debtPk, received, AnyIncrease, true, now, pk, deposits, borrows);
      if PayIn(m1, b, debtPk, received, AnyIncrease, true, now).Ok? {
        PayInEffect(m1, b, debtPk, received, AnyIncrease, true, now);
        var m2 := PayIn(m1, b, debtPk, received, AnyIncrease, true, now).value;
        InsuranceFeeUnlimited(m2, debtPk, paid - received, pk, deposits, borrows);
      }
    }
  }

  function Rest(m: Market, a: nat, b: nat, assetPk: nat, debtPk: nat, amount: nat, paid: int, received: int, now: nat)
    : Result<Market>
  {
    var m1 :- PayIn(m, a, assetPk, amount * ONE, BypassDepositLimit, true, now);
    var m2 :- PayIn(m1, b, debtPk, received, AnyIncrease, true, now);
    BookInsuranceFee(m2, debtPk, paid - received)
  }
}
