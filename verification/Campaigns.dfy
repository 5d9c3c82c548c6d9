/** Liquidity incentive campaigns: deposits are lent out for a lockup period, and
    topped up from a reward vault if they earned less than was promised. */
module Campaigns {
  import opened Results
  import opened FixedPoint
  import opened TransferFees

  const I64_LIMIT: int := 0x8000_0000_0000_0000

  datatype Deposit = Deposit(owner: nat, amount: nat, startTime: int)

  /** A campaign, its reward vault, its deposits (`None` once ended), and a record
      of all that was ever deposited. */
  datatype CampaignState = CampaignState(
    active: bool, lockupPeriod: nat, maxDeposits: nat, remainingCapacity: nat, maxRewards: nat,
    vault: nat, deposits: seq<Option<Deposit>>, deposited: nat)

  function Unwrap<T>(r: Result<T>): Result<T> {
    if r.Ok? then r else Err(Panic)
  }

  /** The yield promised to a deposit of `amount`. */
  function MaxReward(amount: nat, maxDeposits: nat, maxRewards: nat): Result<nat> {
    var share :- Unwrap(CheckedDiv(amount * ONE, maxDeposits * ONE));
    var reward :- Unwrap(CheckedMul(share, maxRewards * ONE));
    Unwrap(ToU64(reward))
  }

  /** `as i64`. */
  function AsI64(x: nat): int {
    if x < I64_LIMIT then x else x - 2 * I64_LIMIT
  }

  /** When a deposit matures; the sum panics when it overflows. */
  function Maturity(startTime: int, lockupPeriod: nat): Result<int> {
    var t := startTime + AsI64(lockupPeriod);
    if -I64_LIMIT <= t < I64_LIMIT then Ok(t) else Err(Panic)
  }

  /** The vault receives `maxRewards` less the transfer fee, and that is promised. */
  function NewCampaign(lockupPeriod: nat, maxDeposits: nat, maxRewards: nat, fee: TransferFee): Result<CampaignState>
    requires fee.basisPoints <= ONE_IN_BASIS_POINTS
  {
    var _ :- Check(0 < maxDeposits, RequireViolated);
    ReceivedBounds(fee, maxRewards);
    var received := Received(fee, maxRewards);
    Ok(CampaignState(true, lockupPeriod, maxDeposits, maxDeposits, received, received, [], 0))
  }

  /** `lent` is the outcome of depositing into the lending program. */
  function AddDeposit(c: CampaignState, owner: nat, amount: nat, feeFree: bool, lent: Result<()>, now: int)
    : Result<CampaignState>
  {
    var _ :- Check(c.active, CampaignNotActive);
    var _ :- Check(amount <= c.remainingCapacity, DepositAmountTooLarge);
    var _ :- Check(0 < amount, RequireViolated);
    var _ :- Check(feeFree, TransferFailed);
    var _ :- lent;
    Ok(c.(deposits := c.deposits + [Some(Deposit(owner, amount, now))],
          remainingCapacity := c.remainingCapacity - amount, deposited := c.deposited + amount))
  }

  /** The part of `promised` that the yield of a deposit redeemed for `redeemed`
      leaves to be paid. */
  function AdditionalReward(promised: nat, amount: nat, redeemed: nat): nat {
    var baseYield := if amount <= redeemed then redeemed - amount else 0;
    if baseYield <= promised then promised - baseYield else 0
  }

  /** `redeemed` is the outcome of withdrawing from the lending program. */
  function EndDeposit(c: CampaignState, id: nat, redeemed: Result<nat>, now: int): Result<(CampaignState, nat)> {
    var _ :- Check(id < |c.deposits| && c.deposits[id].Some?, NoSuchAccount);
    var d := c.deposits[id].value;
    var maturity :- Maturity(d.startTime, c.lockupPeriod);
    var _ :- Check(maturity <= now, DepositNotMature);
    var amount :- redeemed;
    var promised :- MaxReward(d.amount, c.maxDeposits, c.maxRewards);
    var reward := AdditionalReward(promised, d.amount, amount);
    var _ :- Check(reward <= c.vault, TransferFailed);
    Ok((c.(vault := c.vault - reward, deposits := c.deposits[id := None]), amount + reward))
  }

  // ----------------------------------------------------------- the promise

  /** The promised yield always computes, and is the deposit's share of all
      rewards, less at most one unit and one part in 2^48 of all rewards. */
  lemma MaxRewardIs(amount: nat, maxDeposits: nat, maxRewards: nat)
    requires amount <= maxDeposits && 0 < maxDeposits && maxRewards <= U64_MAX
    ensures MaxReward(amount, maxDeposits, maxRewards).Ok?
    ensures var r := MaxReward(amount, maxDeposits, maxRewards).value;
            && r <= maxRewards
            && r * maxDeposits <= amount * maxRewards
            && amount * maxRewards * ONE < (r * ONE + ONE + maxRewards) * maxDeposits
  {
    var share := Truncated(amount * ONE * ONE, maxDeposits * ONE);
    QuotientBounds(amount * ONE, maxDeposits * ONE);
    ShareIs(amount, maxDeposits, share);
    var reward := Product(share, maxRewards * ONE);
    ProductBounds(share, maxRewards * ONE);
    Scale(share, ONE, maxRewards);
    assert share * (maxRewards * ONE) == share * maxRewards * ONE;
    assert reward == share * maxRewards;
    DivisionBounds(reward, ONE);
    RewardIs(amount, maxDeposits, maxRewards, share, reward / ONE);
  }

  lemma ShareIs(amount: nat, maxDeposits: nat, share: int)
    requires amount <= maxDeposits && 0 < maxDeposits && IsQuotient(amount * ONE, maxDeposits * ONE, share)
    ensures share <= ONE && share * maxDeposits <= amount * ONE < share * maxDeposits + maxDeposits
  {
    assert share * (maxDeposits * ONE) == share * maxDeposits * ONE;
    if ONE < share {
      Scale(ONE + 1, share, maxDeposits);
    }
  }

  lemma RewardIs(amount: nat, maxDeposits: nat, maxRewards: nat, share: int, r: int)
    requires 0 < maxDeposits && share <= ONE && share * maxDeposits <= amount * ONE < share * maxDeposits + maxDeposits
    requires r * ONE <= share * maxRewards < r * ONE + ONE
    ensures r <= maxRewards && r * maxDeposits <= amount * maxRewards
    ensures amount * maxRewards * ONE < (r * ONE + ONE + maxRewards) * maxDeposits
  {
    Scale(share, ONE, maxRewards);
    Scale(r * ONE, share * maxRewards, maxDeposits);
    Scale(share * maxDeposits, amount * ONE, maxRewards);
    assert r * ONE * maxDeposits == r * maxDeposits * ONE;
    assert share * maxRewards * maxDeposits == share * maxDeposits * maxRewards;
    assert amount * ONE * maxRewards == amount * maxRewards * ONE;
    Scale(amount * ONE, share * maxDeposits + maxDeposits, maxRewards);
    Scale(share * maxRewards + 1, r * ONE + ONE, maxDeposits);
    assert (share * maxDeposits + maxDeposits) * maxRewards
        == share * maxRewards * maxDeposits + maxRewards * maxDeposits;
    assert (r * ONE + ONE + maxRewards) * maxDeposits == (r * ONE + ONE) * maxDeposits + maxRewards * maxDeposits;
  }

  /** What a deposit was promised, if it is live. */
  function Promised(c: CampaignState, d: Option<Deposit>): nat {
    if d == None then 0 else
    var r := MaxReward(d.value.amount, c.maxDeposits, c.maxRewards);
    if r.Ok? then r.value else 0
  }

  function TotalPromised(c: CampaignState, ds: seq<Option<Deposit>>): nat {
    if ds == [] then 0 else Promised(c, ds[0]) + TotalPromised(c, ds[1..])
  }

  lemma {:induction false} TotalAppend(c: CampaignState, ds: seq<Option<Deposit>>, d: Option<Deposit>)
    ensures TotalPromised(c, ds + [d]) == TotalPromised(c, ds) + Promised(c, d)
  {
    if ds == [] {
      assert ds + [d] == [d];
    } else {
      assert (ds + [d])[1..] == ds[1..] + [d];
      TotalAppend(c, ds[1..], d);
    }
  }

  lemma {:induction false} TotalEnd(c: CampaignState, ds: seq<Option<Deposit>>, id: nat)
    requires id < |ds|
    ensures TotalPromised(c, ds[id := None]) == TotalPromised(c, ds) - Promised(c, ds[id])
  {
    if id == 0 {
      assert ds[id := None][1..] == ds[1..];
    } else {
      assert ds[id := None][1..] == ds[1..][id - 1 := None];
      TotalEnd(c, ds[1..], id - 1);
    }
  }

  /** Promises depend only on the terms of the campaign. */
  lemma {:induction false} SameTerms(c: CampaignState, c': CampaignState, ds: seq<Option<Deposit>>)
    requires c.maxDeposits == c'.maxDeposits && c.maxRewards == c'.maxRewards
    ensures TotalPromised(c, ds) == TotalPromised(c', ds)
  {
    if ds != [] {
      SameTerms(c, c', ds[1..]);
    }
  }

  // ------------------------------------------------------------- every run

  /** What is in the vault beyond the promises made covers those that can still be. */
  predicate Inv(c: CampaignState) {
    && 0 < c.maxDeposits && c.maxRewards <= U64_MAX
    && c.remainingCapacity == c.maxDeposits - c.deposited
    && (forall i :: 0 <= i < |c.deposits| && c.deposits[i].Some? ==> c.deposits[i].value.amount <= c.maxDeposits)
    && c.remainingCapacity * c.maxRewards <= (c.vault - TotalPromised(c, c.deposits)) * c.maxDeposits
  }

  lemma AddKeeps(c: CampaignState, owner: nat, amount: nat, feeFree: bool, lent: Result<()>, now: int)
    requires Inv(c) && AddDeposit(c, owner, amount, feeFree, lent, now).Ok?
    ensures Inv(AddDeposit(c, owner, amount, feeFree, lent, now).value)
  {
    hide MaxReward;
    var c' := AddDeposit(c, owner, amount, feeFree, lent, now).value;
    MaxRewardIs(amount, c.maxDeposits, c.maxRewards);
    var r := MaxReward(amount, c.maxDeposits, c.maxRewards).value;
    TotalAppend(c, c.deposits, Some(Deposit(owner, amount, now)));
    SameTerms(c, c', c'.deposits);
    assert (c.remainingCapacity - amount) * c.maxRewards == c.remainingCapacity * c.maxRewards - amount * c.maxRewards;
    assert (c.vault - TotalPromised(c, c.deposits) - r) * c.maxDeposits
        == (c.vault - TotalPromised(c, c.deposits)) * c.maxDeposits - r * c.maxDeposits;
  }

  lemma EndKeeps(c: CampaignState, id: nat, redeemed: Result<nat>, now: int)
    requires Inv(c) && EndDeposit(c, id, redeemed, now).Ok?
    ensures Inv(EndDeposit(c, id, redeemed, now).value.0)
  {
    hide MaxReward;
    var c' := EndDeposit(c, id, redeemed, now).value.0;
    TotalEnd(c, c.deposits, id);
    SameTerms(c, c', c'.deposits);
    Scale(c.vault - TotalPromised(c, c.deposits), c'.vault - TotalPromised(c', c'.deposits), c.maxDeposits);
  }

  datatype Event =
    | Deposited(owner: nat, amount: nat, feeFree: bool, lent: Result<()>, now: int)
    | Ended(id: nat, redeemed: Result<nat>, now: int)

  /** A failed instruction changes nothing. */
  function Step(c: CampaignState, e: Event): CampaignState {
    match e
    case Deposited(owner, amount, feeFree, lent, now) =>
      var r := AddDeposit(c, owner, amount, feeFree, lent, now);
      if r.Ok? then r.value else c
    case Ended(id, redeemed, now) =>
      var r := EndDeposit(c, id, redeemed, now);
      if r.Ok? then r.value.0 else c
  }

  function Run(c: CampaignState, events: seq<Event>): CampaignState
    decreases |events|
  {
    if events == [] then c else Run(Step(c, events[0]), events[1..])
  }

  lemma {:induction false} RunKeeps(c: CampaignState, events: seq<Event>)
    requires Inv(c)
    ensures Inv(Run(c, events))
    ensures Run(c, events).lockupPeriod == c.lockupPeriod
    decreases |events|
  {
    if events != [] {
      match events[0] {
        case Deposited(owner, amount, feeFree, lent, now) =>
          if AddDeposit(c, owner, amount, feeFree, lent, now).Ok? {
            AddKeeps(c, owner, amount, feeFree, lent, now);
          }
        case Ended(id, redeemed, now) =>
          if EndDeposit(c, id, redeemed, now).Ok? {
            EndKeeps(c, id, redeemed, now);
          }
      }
      RunKeeps(Step(c, events[0]), events[1..]);
    }
  }

  /** After every run the vault holds all that is promised to live deposits, and
      the capacity left is the maximum less all that was ever deposited. */
  lemma CampaignIsSolvent(lockupPeriod: nat, maxDeposits: nat, maxRewards: nat, fee: TransferFee, events: seq<Event>)
    requires fee.basisPoints <= ONE_IN_BASIS_POINTS && maxRewards <= U64_MAX
    requires NewCampaign(lockupPeriod, maxDeposits, maxRewards, fee).Ok?
    ensures var c := Run(NewCampaign(lockupPeriod, maxDeposits, maxRewards, fee).value, events);
            && Inv(c)
            && TotalPromised(c, c.deposits) <= c.vault
            && c.deposited + c.remainingCapacity == c.maxDeposits
  {
    ReceivedBounds(fee, maxRewards);
    var c0 := NewCampaign(lockupPeriod, maxDeposits, maxRewards, fee).value;
    assert Inv(c0);
    RunKeeps(c0, events);
    Covers(Run(c0, events));
  }

  lemma Covers(c: CampaignState)
    requires Inv(c)
    ensures TotalPromised(c, c.deposits) <= c.vault
  {
    Scale(0, c.maxRewards, c.remainingCapacity);
    if c.vault < TotalPromised(c, c.deposits) {
      Scale(c.vault - TotalPromised(c, c.deposits), -1, c.maxDeposits);
    }
  }

  /** In every state of a run, a matured deposit that could be redeemed ends, and
      its owner gets at least the promised yield on what was redeemed. */
  lemma MaturedDepositEnds(c: CampaignState, id: nat, redeemed: nat, now: int)
    requires Inv(c) && id < |c.deposits| && c.deposits[id].Some?
    requires Maturity(c.deposits[id].value.startTime, c.lockupPeriod).Ok?
    requires Maturity(c.deposits[id].value.startTime, c.lockupPeriod).value <= now
    ensures var d := c.deposits[id].value;
            var promised := MaxReward(d.amount, c.maxDeposits, c.maxRewards);
            && promised.Ok? && EndDeposit(c, id, Ok(redeemed), now).Ok?
            && var paid := EndDeposit(c, id, Ok(redeemed), now).value.1;
               && (d.amount <= redeemed ==> paid == Max(redeemed, d.amount + promised.value))
               && (redeemed < d.amount ==> paid == redeemed + promised.value)
  {
    hide MaxReward, Maturity;
    var d := c.deposits[id].value;
    MaxRewardIs(d.amount, c.maxDeposits, c.maxRewards);
    TotalEnd(c, c.deposits, id);
    Covers(c);
  }

  // ------------------------------------------------------------ the lockup

  /** A length of time read as a signed 64-bit number. */
  function Signed(length: nat): int {
    length - if length / I64_LIMIT == 1 then 2 * I64_LIMIT else 0
  }

  /** A deposit, until it ends, stays as it was made, and the terms with it. */
  lemma {:induction false} DepositStays(c: CampaignState, id: nat, events: seq<Event>)
    requires id < |c.deposits|
    ensures var c' := Run(c, events);
            && id < |c'.deposits| && (c'.deposits[id] == None || c'.deposits[id] == c.deposits[id])
            && c'.lockupPeriod == c.lockupPeriod
            && c'.maxDeposits == c.maxDeposits && c'.maxRewards == c.maxRewards
    decreases |events|
  {
    hide MaxReward, Maturity;
    if events != [] {
      DepositStays(Step(c, events[0]), id, events[1..]);
    }
  }

  /** Whatever happens in between, a deposit made at `start` ends no earlier than the
      lockup, as a signed number, later, only once it could be redeemed, and
      for no less than was redeemed and no less than was promised. */
  lemma EndsAfterLockup(c: CampaignState, owner: nat, amount: nat, feeFree: bool, lent: Result<()>, start: int,
                        events: seq<Event>, redeemed: Result<nat>, now: int)
    requires c.lockupPeriod < 2 * I64_LIMIT && AddDeposit(c, owner, amount, feeFree, lent, start).Ok?
    requires EndDeposit(Run(AddDeposit(c, owner, amount, feeFree, lent, start).value, events), |c.deposits|, redeemed,
                        now).Ok?
    ensures start + Signed(c.lockupPeriod) <= now
    ensures redeemed.Ok? && MaxReward(amount, c.maxDeposits, c.maxRewards).Ok?
    ensures var paid := EndDeposit(Run(AddDeposit(c, owner, amount, feeFree, lent, start).value, events), |c.deposits|,
                                   redeemed, now).value.1;
            var promised := MaxReward(amount, c.maxDeposits, c.maxRewards).value;
            redeemed.value <= paid && (amount <= redeemed.value ==> amount + promised <= paid)
  {
    hide MaxReward;
    DepositStays(AddDeposit(c, owner, amount, feeFree, lent, start).value, |c.deposits|, events);
  }

  /** In no run of a campaign with this lockup does a deposit end before it is over. */
  ghost predicate KeepsDepositsIn(lockupPeriod: nat) {
    forall c: CampaignState, owner: nat, amount: nat, feeFree: bool, lent: Result<()>, start: int,
           events: seq<Event>, redeemed: Result<nat>, now: int ::
      c.lockupPeriod == lockupPeriod && AddDeposit(c, owner, amount, feeFree, lent, start).Ok? &&
      EndDeposit(Run(AddDeposit(c, owner, amount, feeFree, lent, start).value, events), |c.deposits|, redeemed, now).Ok?
      ==> start + lockupPeriod <= now
  }

  /** A lockup keeps deposits in until it is over exactly when its length, cast to a
      signed number, does not become negative. */
  lemma LockupIsKept(lockupPeriod: nat)
    requires lockupPeriod < 2 * I64_LIMIT
    ensures KeepsDepositsIn(lockupPeriod) <==> lockupPeriod < I64_LIMIT
  {
    hide AddDeposit, EndDeposit, Run;
    if lockupPeriod < I64_LIMIT {
      forall c: CampaignState, owner: nat, amount: nat, feeFree: bool, lent: Result<()>, start: int,
             events: seq<Event>, redeemed: Result<nat>, now: int
        | c.lockupPeriod == lockupPeriod && AddDeposit(c, owner, amount, feeFree, lent, start).Ok? &&
          EndDeposit(Run(AddDeposit(c, owner, amount, feeFree, lent, start).value, events), |c.deposits|, redeemed,
                     now).Ok?
        ensures start + lockupPeriod <= now
      {
        EndsAfterLockup(c, owner, amount, feeFree, lent, start, events, redeemed, now);
      }
    } else {
      LongLockupEndsAtOnce(lockupPeriod);
    }
  }

  /** A new campaign with such a lockup lets a deposit end in the second it was made. */
  lemma LongLockupEndsAtOnce(lockupPeriod: nat)
    requires I64_LIMIT <= lockupPeriod < 2 * I64_LIMIT
    ensures !KeepsDepositsIn(lockupPeriod)
  {
    var c := NewCampaign(lockupPeriod, 1, 0, NO_FEE).value;
    var c' := AddDeposit(c, 0, 1, true, Ok(()), 0).value;
    MaxRewardIs(1, 1, 0);
    assert Run(c', []) == c';
    assert EndDeposit(Run(c', []), |c.deposits|, Ok(1), 0).Ok?;
  }

  /** All that events put into the lending program without a transfer fee. */
  function Lendable(events: seq<Event>): nat {
    if events == [] then 0 else
    (if events[0].Deposited? && events[0].feeFree && events[0].lent.Ok? then events[0].amount else 0)
    + Lendable(events[1..])
  }

  /** Only what was lent counts as deposited, and nothing in a campaign that is not active. */
  lemma {:induction false} DepositedIsLent(c: CampaignState, events: seq<Event>)
    ensures Run(c, events).deposited - c.deposited <= if c.active then Lendable(events) else 0
    ensures Run(c, events).active == c.active
    decreases |events|
  {
    hide MaxReward, Maturity;
    if events != [] {
      DepositedIsLent(Step(c, events[0]), events[1..]);
    }
  }

  // --------------------------------------------------------------- program

  /** The accounts of one campaign, which the instructions update in place. */
  class Campaign {
    var active: bool
    var lockupPeriod: nat
    var maxDeposits: nat
    var remainingCapacity: nat
    var maxRewards: nat
    var vault: nat
    var deposits: seq<Option<Deposit>>
    ghost var deposited: nat

    ghost function State(): CampaignState
      reads this
    {
      CampaignState(active, lockupPeriod, maxDeposits, remainingCapacity, maxRewards, vault, deposits, deposited)
    }

    method CreateCampaign(lockup: nat, max: nat, rewards: nat, fee: TransferFee) returns (r: Result<()>)
      requires fee.basisPoints <= ONE_IN_BASIS_POINTS
      modifies this
      ensures r.Ok? <==> NewCampaign(lockup, max, rewards, fee).Ok?
      ensures r.Ok? ==> Ok(State()) == NewCampaign(lockup, max, rewards, fee)
      ensures r.Err? ==> r.error == RequireViolated && State() == old(State())
    {
      if max == 0 {
        return Err(RequireViolated);
      }
      ReceivedBounds(fee, rewards);
      vault := Received(fee, rewards);
      active, lockupPeriod, maxDeposits, remainingCapacity, maxRewards := true, lockup, max, max, vault;
      deposits, deposited := [], 0;
      return Ok(());
    }

    method CreateDeposit(owner: nat, amount: nat, feeFree: bool, lent: Result<()>, now: int) returns (r: Result<()>)
      modifies this
      ensures match AddDeposit(old(State()), owner, amount, feeFree, lent, now)
              case Ok(c) => r.Ok? && State() == c
              case Err(e) => r == Err(e) && State() == old(State())
    {
      if !active {
        return Err(CampaignNotActive);
      }
      if remainingCapacity < amount {
        return Err(DepositAmountTooLarge);
      }
      if amount == 0 {
        return Err(RequireViolated);
      }
      if !feeFree {
        return Err(TransferFailed);
      }
      if lent.Err? {
        return lent;
      }
      deposits := deposits + [Some(Deposit(owner, amount, now))];
      remainingCapacity := remainingCapacity - amount;
      deposited := deposited + amount;
      return Ok(());
    }

    method End(id: nat, redeemed: Result<nat>, now: int) returns (r: Result<nat>)
      modifies this
      ensures match EndDeposit(old(State()), id, redeemed, now)
              case Ok((c, paid)) => r == Ok(paid) && State() == c
              case Err(e) => r == Err(e) && State() == old(State())
    {
      if |deposits| <= id || deposits[id] == None {
        return Err(NoSuchAccount);
      }
      var d := deposits[id].value;
      var maturity := Maturity(d.startTime, lockupPeriod);
      if maturity.Err? {
        return Err(maturity.error);
      }
      if now < maturity.value {
        return Err(DepositNotMature);
      }
      if redeemed.Err? {
        return redeemed;
      }
      var promised := MaxReward(d.amount, maxDeposits, maxRewards);
      if promised.Err? {
        return promised;
      }
      var reward := AdditionalReward(promised.value, d.amount, redeemed.value);
      if vault < reward {
        return Err(TransferFailed);
      }
      vault := vault - reward;
      deposits := deposits[id := None];
      return Ok(redeemed.value + reward);
    }
  }
}
