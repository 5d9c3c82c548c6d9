/** The program's state as it is updated in place: a bank, the sixteen balances of
    an account, and a wrapper that moves tokens between the two.  Every method
    is proved to compute the function of the same name on values.  The state left
    behind by an error is of no interest: the transaction is rolled back. */
module Accounts {
  import opened Results
  import opened FixedPoint
  import opened Interest
  import opened Valuation
  import opened Banks
  import opened Positions
  import opened Ledger

  /** The outcome `r`, with state `after`, is the one specified. */
  predicate Computes<T(==)>(spec: Result<T>, r: Result<()>, after: T) {
    match spec
    case Ok(value) => r == Ok(()) && after == value
    case Err(e) => r == Err(e)
  }

  predicate ComputesAmount<T(==)>(spec: Result<(T, nat)>, r: Result<nat>, after: T) {
    match spec
    case Ok((value, amount)) => r == Ok(amount) && after == value
    case Err(e) => r == Err(e)
  }

  class Bank {
    const mintDecimals: nat
    var assetShareValue: int
    var liabilityShareValue: int
    var totalAssetShares: int
    var totalLiabilityShares: int
    var insuranceFees: int
    var groupFees: int
    var programFees: int
    var lastUpdate: int
    var config: BankConfig
    var lendingEmissions: bool
    var borrowEmissions: bool
    var emissionsSetUp: bool
    var emissionsRate: nat
    var emissionsRemaining: int

    function State(): BankState
      reads this
    {
      BankState(mintDecimals, assetShareValue, liabilityShareValue, totalAssetShares, totalLiabilityShares,
                insuranceFees, groupFees, programFees, lastUpdate, config,
                lendingEmissions, borrowEmissions, emissionsSetUp, emissionsRate, emissionsRemaining)
    }

    constructor (config: BankConfig, decimals: nat, now: int)
      ensures State() == NewBank(config, decimals, now)
    {
      mintDecimals := decimals;
      assetShareValue, liabilityShareValue := ONE, ONE;
      totalAssetShares, totalLiabilityShares := 0, 0;
      insuranceFees, groupFees, programFees := 0, 0, 0;
      lastUpdate := now;
      this.config := config;
      lendingEmissions, borrowEmissions, emissionsSetUp := false, false, false;
      emissionsRate, emissionsRemaining := 0, 0;
    }

    method ChangeAssetShares(shares: int, bypassDepositLimit: bool) returns (r: Result<()>)
      modifies this`totalAssetShares
      ensures Computes(old(State()).ChangeAssetShares(shares, bypassDepositLimit), r, State())
    {
      totalAssetShares :- Checked(totalAssetShares + shares);
      if 0 < shares && config.depositLimit != U64_MAX && !bypassDepositLimit {
        var deposits :- State().AssetAmount(totalAssetShares);
        return Check(deposits < config.depositLimit * ONE, BankAssetCapacityExceeded);
      }
      return Ok(());
    }

    method ChangeLiabilityShares(shares: int, bypassBorrowLimit: bool) returns (r: Result<()>)
      modifies this`totalLiabilityShares
      ensures Computes(old(State()).ChangeLiabilityShares(shares, bypassBorrowLimit), r, State())
    {
      totalLiabilityShares :- Checked(totalLiabilityShares + shares);
      if !bypassBorrowLimit && 0 < shares && config.borrowLimit != U64_MAX {
        var liabilities :- State().LiabilityAmount(totalLiabilityShares);
        return Check(liabilities < config.borrowLimit * ONE, BankLiabilityCapacityExceeded);
      }
      return Ok(());
    }

    method AccrueInterest(now: int, fees: ProgramFees) returns (r: Result<()>)
      modifies this
      ensures Computes(old(State()).AccrueInterest(now, fees), r, State())
    {
      hide AccrualChanges, CheckedMul, InRange;
      if now < lastUpdate {
        return Err(Panic);
      }
      var seconds := now - lastUpdate;
      if seconds == 0 {
        return Ok(());
      }
      var assets :- State().AssetAmount(totalAssetShares);
      var liabilities :- State().LiabilityAmount(totalLiabilityShares);
      lastUpdate := now;
      if assets == 0 || liabilities == 0 {
        return Ok(());
      }
      var a :- AccrualChanges(seconds, assets, liabilities, config.rates, fees, assetShareValue, liabilityShareValue);
      assetShareValue, liabilityShareValue := a.assetShareValue, a.liabilityShareValue;
      if 0 < a.group {
        groupFees :- Checked(a.group + groupFees);
      }
      if 0 < a.insurance {
        insuranceFees :- Checked(a.insurance + insuranceFees);
      }
      if 0 < a.protocol {
        programFees :- Checked(a.protocol + programFees);
      }
      return Ok(());
    }

    method SocializeLoss(loss: int) returns (r: Result<()>)
      modifies this`assetShareValue
      ensures Computes(old(State()).SocializeLoss(loss), r, State())
    {
      var total :- CheckedMul(totalAssetShares, assetShareValue);
      var left :- Checked(total - loss);
      assetShareValue :- CheckedDiv(left, totalAssetShares);
      return Ok(());
    }
  }

  class LendingAccount {
    const balances: array<BalanceState>

    constructor ()
      ensures fresh(balances) && balances[..] == seq(MAX_LENDING_ACCOUNT_BALANCES, _ => EMPTY_BALANCE)
    {
      balances := new BalanceState[MAX_LENDING_ACCOUNT_BALANCES](_ => EMPTY_BALANCE);
    }

    method GetBalance(pk: nat) returns (r: Option<nat>)
      ensures r == FindBalance(balances[..], pk)
      ensures r.Some? ==> r.value < balances.Length
    {
      for i := 0 to balances.Length
        invariant FindBalance(balances[..], pk) == FindFrom(balances[..], pk, i)
      {
        if balances[i].active && balances[i].bankPk == pk {
          return Some(i);
        }
      }
      return None;
    }

    method GetFirstEmptyBalance() returns (r: Option<nat>)
      ensures r == FirstEmptyFrom(balances[..], 0)
      ensures r.Some? ==> r.value < balances.Length
    {
      for i := 0 to balances.Length
        invariant FirstEmptyFrom(balances[..], 0) == FirstEmptyFrom(balances[..], i)
      {
        if !balances[i].active {
          return Some(i);
        }
      }
      return None;
    }

    method FindOrCreate(pk: nat, now: nat) returns (r: Result<nat>)
      modifies balances
      ensures match SlotFor(old(balances[..]), pk, true, now)
              case Ok((i, b)) => r == Ok(i) && i < balances.Length && balances[..] == old(balances[..])[i := b]
              case Err(e) => r == Err(e) && balances[..] == old(balances[..])
    {
      hide FindBalance, FirstEmptyFrom;
      var found := GetBalance(pk);
      if found.Some? {
        return Ok(found.value);
      }
      var empty := GetFirstEmptyBalance();
      if empty == None {
        return Err(LendingAccountBalanceSlotsFull);
      }
      balances[empty.value] := FreshBalance(pk, now);
      return Ok(empty.value);
    }
  }

  /** A bank and one balance of an account. */
  class BankAccountWrapper {
    const bank: Bank
    const balances: array<BalanceState>
    const slot: nat

    predicate Valid()
      reads this
    {
      slot < balances.Length
    }

    function Held(): Position
      requires Valid()
      reads this, bank, balances
    {
      Position(bank.State(), balances[slot])
    }

    /** No other balance of the account has changed. */
    twostate predicate OthersSame()
      requires Valid()
      reads this, balances
    {
      forall i :: 0 <= i < balances.Length && i != slot ==> balances[i] == old(balances[i])
    }

    constructor (bank: Bank, account: LendingAccount, slot: nat)
      requires slot < account.balances.Length
      ensures Valid() && this.bank == bank && balances == account.balances && this.slot == slot
    {
      this.bank, this.balances, this.slot := bank, account.balances, slot;
    }

    method ChangeAssetShares(delta: int) returns (r: Result<()>)
      requires Valid()
      modifies balances
      ensures OthersSame()
      ensures r == if InRange(old(balances[slot]).assetShares + delta) then Ok(()) else Err(MathError)
      ensures r.Ok? ==> balances[slot] == old(balances[slot]).(assetShares := old(balances[slot]).assetShares + delta)
    {
      var shares :- Checked(balances[slot].assetShares + delta);
      balances[slot] := balances[slot].(assetShares := shares);
      return Ok(());
    }

    method ChangeLiabilityShares(delta: int) returns (r: Result<()>)
      requires Valid()
      modifies balances
      ensures OthersSame()
      ensures r == if InRange(old(balances[slot]).liabilityShares + delta) then Ok(()) else Err(MathError)
      ensures r.Ok? ==>
                balances[slot] == old(balances[slot]).(liabilityShares := old(balances[slot]).liabilityShares + delta)
    {
      var shares :- Checked(balances[slot].liabilityShares + delta);
      balances[slot] := balances[slot].(liabilityShares := shares);
      return Ok(());
    }

    method CloseSlot() returns (r: Result<()>)
      requires Valid()
      modifies balances
      ensures OthersSame() && Computes(old(balances[slot]).Close(), r, balances[slot])
    {
      var _ :- Check(balances[slot].emissionsOutstanding < ONE, CannotCloseOutstandingEmissions);
      balances[slot] := EMPTY_BALANCE;
      return Ok(());
    }

    method ClaimEmissions(now: nat) returns (r: Result<()>)
      requires Valid()
      modifies bank, balances
      ensures OthersSame() && Computes(old(Held()).ClaimEmissions(now), r, Held())
    {
      hide Position.EmissionsBase, CalcEmissions;
      var amount :- Held().EmissionsBase();
      if amount.Some? {
        var last := if balances[slot].lastUpdate < MIN_EMISSIONS_START_TIME then now else balances[slot].lastUpdate;
        var _ :- Check(last <= now, MathError);
        var emissions :- CalcEmissions((now - last) * ONE, amount.value, bank.mintDecimals, bank.emissionsRate * ONE);
        var capped := Min(emissions, bank.emissionsRemaining);
        var outstanding :- Checked(balances[slot].emissionsOutstanding + capped);
        balances[slot] := balances[slot].(emissionsOutstanding := outstanding);
        bank.emissionsRemaining :- Checked(bank.emissionsRemaining - capped);
      }
      balances[slot] := balances[slot].(lastUpdate := now);
      return Ok(());
    }

    method SettleEmissionsAndGetTransferAmount(now: nat) returns (r: Result<nat>)
      requires Valid()
      modifies bank, balances
      ensures OthersSame() && ComputesAmount(old(Held()).SettleEmissions(now), r, Held())
    {
      hide Position.ClaimEmissions;
      var _ :- ClaimEmissions(now);
      var outstanding := balances[slot].emissionsOutstanding;
      balances[slot] := balances[slot].(emissionsOutstanding := outstanding - Floor(outstanding));
      return ToU64(Floor(outstanding));
    }

    method Raise(delta: int, kind: IncreaseType) returns (r: Result<()>)
      requires Valid()
      modifies bank, balances
      ensures OthersSame() && Computes(old(Held()).Raise(delta, kind), r, Held())
    {
      hide BankState.ChangeAssetShares, BankState.ChangeLiabilityShares, BankState.AssertOperational, CheckedMul,
           CheckedDiv;
      var debt :- bank.State().LiabilityAmount(balances[slot].liabilityShares);
      var rest :- Checked(delta - debt);
      var repaid, deposited := Min(debt, delta), Max(rest, 0);
      match kind {
        case RepayOnly => var _ :- Check(IsZeroWithTolerance(deposited), OperationRepayOnly);
        case DepositOnly => var _ :- Check(IsZeroWithTolerance(repaid), OperationDepositOnly);
        case _ =>
      }
      var _ :- bank.State().AssertOperational(IsPositiveWithTolerance(deposited));
      var gained :- bank.State().AssetShares(deposited);
      var _ :- ChangeAssetShares(gained);
      var _ :- bank.ChangeAssetShares(gained, kind == BypassDepositLimit);
      var lost :- bank.State().LiabilityShares(repaid);
      var _ :- ChangeLiabilityShares(-lost);
      r := bank.ChangeLiabilityShares(-lost, true);
    }

    method Lower(delta: int, kind: DecreaseType) returns (r: Result<()>)
      requires Valid()
      modifies bank, balances
      ensures OthersSame() && Computes(old(Held()).Lower(delta, kind), r, Held())
    {
      hide BankState.ChangeAssetShares, BankState.ChangeLiabilityShares, BankState.AssertOperational, CheckedMul,
           CheckedDiv, BankState.CheckUtilizationRatio;
      var held :- bank.State().AssetAmount(balances[slot].assetShares);
      var rest :- Checked(delta - held);
      var withdrawn, borrowed := Min(held, delta), Max(rest, 0);
      match kind {
        case WithdrawOnly => var _ :- Check(IsZeroWithTolerance(borrowed), OperationWithdrawOnly);
        case BorrowOnly => var _ :- Check(IsZeroWithTolerance(withdrawn), OperationBorrowOnly);
        case _ =>
      }
      var _ :- bank.State().AssertOperational(IsPositiveWithTolerance(borrowed));
      var lost :- bank.State().AssetShares(withdrawn);
      var _ :- ChangeAssetShares(-lost);
      var _ :- bank.ChangeAssetShares(-lost, false);
      var gained :- bank.State().LiabilityShares(borrowed);
      var _ :- ChangeLiabilityShares(gained);
      var _ :- bank.ChangeLiabilityShares(gained, kind == BypassBorrowLimit);
      var _ :- bank.State().CheckUtilizationRatio();
      return Ok(());
    }

    method IncreaseBalanceInternal(delta: int, kind: IncreaseType, now: nat) returns (r: Result<()>)
      requires Valid()
      modifies bank, balances
      ensures OthersSame() && Computes(old(Held()).Increase(delta, kind, now), r, Held())
    {
      hide Position.ClaimEmissions, Position.Raise;
      var _ :- ClaimEmissions(now);
      r := Raise(delta, kind);
    }

    method DecreaseBalanceInternal(delta: int, kind: DecreaseType, now: nat) returns (r: Result<()>)
      requires Valid()
      modifies bank, balances
      ensures OthersSame() && Computes(old(Held()).Decrease(delta, kind, now), r, Held())
    {
      hide Position.ClaimEmissions, Position.Lower;
      var _ :- ClaimEmissions(now);
      r := Lower(delta, kind);
    }

    method WithdrawAll(now: nat) returns (r: Result<nat>)
      requires Valid()
      modifies bank, balances
      ensures OthersSame() && ComputesAmount(old(Held()).WithdrawAll(now), r, Held())
    {
      hide Position.ClaimEmissions, BankState.ChangeAssetShares, BankState.AssertOperational,
           BankState.CheckUtilizationRatio, CheckedMul;
      var _ :- ClaimEmissions(now);
      var _ :- bank.State().AssertOperational(false);
      var shares := balances[slot].assetShares;
      var assets :- bank.State().AssetAmount(shares);
      var liabilities :- bank.State().LiabilityAmount(balances[slot].liabilityShares);
      var _ :- Check(IsPositiveWithTolerance(assets), NoAssetFound);
      var _ :- Check(IsZeroWithTolerance(liabilities), NoAssetFound);
      var _ :- CloseSlot();
      var _ :- bank.ChangeAssetShares(-shares, false);
      var _ :- bank.State().CheckUtilizationRatio();
      var paid := Floor(assets);
      bank.insuranceFees :- Checked(assets - paid + bank.insuranceFees);
      return ToU64(paid);
    }

    method RepayAll(now: nat) returns (r: Result<nat>)
      requires Valid()
      modifies bank, balances
      ensures OthersSame() && ComputesAmount(old(Held()).RepayAll(now), r, Held())
    {
      hide Position.ClaimEmissions, BankState.ChangeLiabilityShares, BankState.AssertOperational, CheckedMul;
      var _ :- ClaimEmissions(now);
      var _ :- bank.State().AssertOperational(false);
      var shares := balances[slot].liabilityShares;
      var liabilities :- bank.State().LiabilityAmount(shares);
      var assets :- bank.State().AssetAmount(balances[slot].assetShares);
      var _ :- Check(IsPositiveWithTolerance(liabilities), NoLiabilityFound);
      var _ :- Check(IsZeroWithTolerance(assets), NoLiabilityFound);
      var _ :- CloseSlot();
      var _ :- bank.ChangeLiabilityShares(-shares, false);
      var due :- Checked(Ceil(liabilities));
      bank.insuranceFees :- Checked(due - liabilities + bank.insuranceFees);
      return ToU64(due);
    }

    method CloseBalance(now: nat) returns (r: Result<()>)
      requires Valid()
      modifies bank, balances
      ensures OthersSame() && Computes(old(Held()).CloseBalance(now), r, Held())
    {
      hide Position.ClaimEmissions, CheckedMul;
      var _ :- ClaimEmissions(now);
      var liabilities :- bank.State().LiabilityAmount(balances[slot].liabilityShares);
      var assets :- bank.State().AssetAmount(balances[slot].assetShares);
      var _ :- Check(IsZeroWithTolerance(liabilities), IllegalBalanceState);
      var _ :- Check(IsZeroWithTolerance(assets), IllegalBalanceState);
      r := CloseSlot();
    }
  }
}
