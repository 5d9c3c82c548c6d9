/** Banks, their vaults, and the accounts that hold balances in them. */
module Ledger {
  import opened Results
  import opened FixedPoint
  import opened Interest
  import opened Banks
  import opened Positions

  const MAX_LENDING_ACCOUNT_BALANCES: nat := 16

  datatype Account = Account(balances: seq<BalanceState>, disabled: bool, inFlashloan: bool)

  /** A bank, the tokens in its liquidity vault, and a record of what left its
      books: shares dropped when balances closed, and emissions funded, paid out
      and forfeited. */
  datatype Pool = Pool(
    bank: BankState, vault: int,
    droppedAssets: int, droppedLiabilities: int,
    emissionsFunded: int, emissionsPaid: int, emissionsForfeited: int)

  datatype Market = Market(pools: map<nat, Pool>, accounts: seq<Account>, fees: ProgramFees) {

    function PutPool(pk: nat, pool: Pool): Market {
      this.(pools := pools[pk := pool])
    }

    /** Replace a pool and one balance. */
    function Put(pk: nat, pool: Pool, a: nat, i: nat, b: BalanceState): Market
      requires a < |accounts| && i < |accounts[a].balances|
    {
      this.(pools := pools[pk := pool],
            accounts := accounts[a := accounts[a].(balances := accounts[a].balances[i := b])])
    }
  }

  // ------------------------------------------------------------ finding a slot

  /** The active balance for bank `pk`. */
  function FindBalance(bs: seq<BalanceState>, pk: nat): Option<nat> {
    FindFrom(bs, pk, 0)
  }

  function FindFrom(bs: seq<BalanceState>, pk: nat, from: nat): (r: Option<nat>)
    ensures r.Some? ==> from <= r.value < |bs| && bs[r.value].active && bs[r.value].bankPk == pk
    ensures r == None ==> forall i :: from <= i < |bs| ==> !(bs[i].active && bs[i].bankPk == pk)
    decreases |bs| - from
  {
    if |bs| <= from then None
    else if bs[from].active && bs[from].bankPk == pk then Some(from)
    else FindFrom(bs, pk, from + 1)
  }

  function FirstEmptyFrom(bs: seq<BalanceState>, from: nat): (r: Option<nat>)
    ensures r.Some? ==> from <= r.value < |bs| && !bs[r.value].active
    decreases |bs| - from
  {
    if |bs| <= from then None
    else if !bs[from].active then Some(from)
    else FirstEmptyFrom(bs, from + 1)
  }

  function FreshBalance(pk: nat, now: nat): BalanceState {
    BalanceState(true, pk, 0, 0, 0, now)
  }

  /** The slot of the balance for `pk`, and the balance in it; with `create` a
      fresh balance in the first free slot if there is none. */
  function SlotFor(bs: seq<BalanceState>, pk: nat, create: bool, now: nat): Result<(nat, BalanceState)> {
    match FindBalance(bs, pk)
    case Some(i) => Ok((i, bs[i]))
    case None =>
      if !create then Err(BankAccountNotFound) else
      match FirstEmptyFrom(bs, 0)
      case Some(i) => Ok((i, FreshBalance(pk, now)))
      case None => Err(LendingAccountBalanceSlotsFull)
  }

  // ------------------------------------------------------------------- totals

  datatype Quantity = AssetQ | LiabilityQ | EmissionQ

  const QUANTITIES: set<Quantity> := {AssetQ, LiabilityQ, EmissionQ}

  /** What balance `b` holds of bank `pk`. */
  function Holding(b: BalanceState, pk: nat, q: Quantity): int {
    if !b.active || b.bankPk != pk then 0 else
    match q
    case AssetQ => b.assetShares
    case LiabilityQ => b.liabilityShares
    case EmissionQ => b.emissionsOutstanding
  }

  function SumBalances(bs: seq<BalanceState>, pk: nat, q: Quantity): int {
    if bs == [] then 0 else Holding(bs[0], pk, q) + SumBalances(bs[1..], pk, q)
  }

  function SumAccounts(accounts: seq<Account>, pk: nat, q: Quantity): int {
    if accounts == [] then 0 else SumBalances(accounts[0].balances, pk, q) + SumAccounts(accounts[1..], pk, q)
  }

  /** What bank `pool` has on its books for its users. */
  function Booked(pool: Pool, q: Quantity): int {
    match q
    case AssetQ => pool.bank.totalAssetShares - pool.droppedAssets
    case LiabilityQ => pool.bank.totalLiabilityShares - pool.droppedLiabilities
    case EmissionQ =>
      (pool.emissionsFunded - pool.emissionsPaid) * ONE - pool.emissionsForfeited - pool.bank.emissionsRemaining
  }

  // ---------------------------------------------------------------- invariant

  predicate SlotOk(b: BalanceState, keys: set<nat>) {
    && b.Sound()
    && (b.active ==> b.bankPk in keys)
    && (!b.active ==> b.assetShares == 0 && b.liabilityShares == 0 && b.emissionsOutstanding == 0)
  }

  /** No two active balances are for the same bank. */
  predicate Distinct(bs: seq<BalanceState>) {
    forall i, j :: 0 <= i < j < |bs| && bs[i].active && bs[j].active ==> bs[i].bankPk != bs[j].bankPk
  }

  predicate AccountOk(acct: Account, keys: set<nat>) {
    && |acct.balances| == MAX_LENDING_ACCOUNT_BALANCES
    && (forall i :: 0 <= i < |acct.balances| ==> SlotOk(acct.balances[i], keys))
    && Distinct(acct.balances)
  }

  predicate PoolOk(pool: Pool) {
    && pool.bank.Healthy() && 0 <= pool.vault
    && 0 <= pool.droppedAssets && 0 <= pool.droppedLiabilities
    && 0 <= pool.emissionsPaid && 0 <= pool.emissionsForfeited
  }

  /** The books of bank `pk` agree with the balances of its users. */
  predicate Agrees(m: Market, pk: nat)
    requires pk in m.pools
  {
    forall q :: q in QUANTITIES ==> Booked(m.pools[pk], q) == SumAccounts(m.accounts, pk, q)
  }

  predicate Inv(m: Market) {
    && (forall a :: 0 <= a < |m.accounts| ==> AccountOk(m.accounts[a], m.pools.Keys))
    && (forall pk :: pk in m.pools ==> PoolOk(m.pools[pk]) && Agrees(m, pk))
  }

  lemma PoolIsOk(m: Market, pk: nat)
    requires Inv(m) && pk in m.pools
    ensures PoolOk(m.pools[pk])
  {
  }

  // --------------------------------------------------------- lemmas about sums

  lemma {:induction false} SumBalancesUpdate(bs: seq<BalanceState>, i: nat, b: BalanceState, pk: nat, q: Quantity)
    requires i < |bs|
    ensures SumBalances(bs[i := b], pk, q) == SumBalances(bs, pk, q) - Holding(bs[i], pk, q) + Holding(b, pk, q)
  {
    if i == 0 {
      assert bs[i := b][1..] == bs[1..];
    } else {
      assert bs[i := b][1..] == bs[1..][i - 1 := b];
      SumBalancesUpdate(bs[1..], i - 1, b, pk, q);
    }
  }

  lemma {:induction false} SumAccountsUpdate(accounts: seq<Account>, a: nat, acct: Account, pk: nat, q: Quantity)
    requires a < |accounts|
    ensures SumAccounts(accounts[a := acct], pk, q)
            == SumAccounts(accounts, pk, q) - SumBalances(accounts[a].balances, pk, q)
               + SumBalances(acct.balances, pk, q)
  {
    if a == 0 {
      assert accounts[a := acct][1..] == accounts[1..];
    } else {
      assert accounts[a := acct][1..] == accounts[1..][a - 1 := acct];
      SumAccountsUpdate(accounts[1..], a - 1, acct, pk, q);
    }
  }

  lemma {:induction false} SumBalancesAtLeast(bs: seq<BalanceState>, pk: nat, q: Quantity, i: nat)
    requires i <= |bs| && forall j :: 0 <= j < |bs| ==> bs[j].Sound()
    ensures 0 <= SumBalances(bs, pk, q)
    ensures i < |bs| ==> Holding(bs[i], pk, q) <= SumBalances(bs, pk, q)
  {
    if bs != [] {
      SumBalancesAtLeast(bs[1..], pk, q, if i == 0 then 0 else i - 1);
    }
  }

  lemma {:induction false} SumAccountsAtLeast(accounts: seq<Account>, pk: nat, q: Quantity, a: nat)
    requires a <= |accounts|
    requires forall c, j :: 0 <= c < |accounts| && 0 <= j < |accounts[c].balances| ==> accounts[c].balances[j].Sound()
    ensures 0 <= SumAccounts(accounts, pk, q)
    ensures a < |accounts| ==> SumBalances(accounts[a].balances, pk, q) <= SumAccounts(accounts, pk, q)
  {
    if accounts != [] {
      SumBalancesAtLeast(accounts[0].balances, pk, q, 0);
      SumAccountsAtLeast(accounts[1..], pk, q, if a == 0 then 0 else a - 1);
    }
  }

  /** No balance holds more than its bank has booked. */
  lemma HoldingIsBooked(m: Market, pk: nat, a: nat, i: nat, q: Quantity)
    requires Inv(m) && pk in m.pools && a < |m.accounts| && i < |m.accounts[a].balances|
    ensures Holding(m.accounts[a].balances[i], pk, q) <= Booked(m.pools[pk], q)
  {
    assert q in QUANTITIES;
    forall c, j | 0 <= c < |m.accounts| && 0 <= j < |m.accounts[c].balances|
      ensures m.accounts[c].balances[j].Sound()
    {
      assert AccountOk(m.accounts[c], m.pools.Keys);
    }
    SumAccountsAtLeast(m.accounts, pk, q, a);
    SumBalancesAtLeast(m.accounts[a].balances, pk, q, i);
  }

  // ----------------------------------------------------- keeping the invariant

  /** Slot `i` of account `a` belongs to bank `pk`, or is free to. */
  predicate SlotFits(m: Market, pk: nat, a: nat, i: nat) {
    && a < |m.accounts| && i < |m.accounts[a].balances|
    && var bs := m.accounts[a].balances;
       && (bs[i].active ==> bs[i].bankPk == pk)
       && (!bs[i].active ==> FindBalance(bs, pk) == None)
  }

  /** `b` may stand in a slot of bank `pk`. */
  predicate BalanceFits(b: BalanceState, pk: nat) {
    && b.Sound()
    && (b.active ==> b.bankPk == pk)
    && (!b.active ==> b.assetShares == 0 && b.liabilityShares == 0 && b.emissionsOutstanding == 0)
  }

  lemma PutKeepsAccount(m: Market, pk: nat, a: nat, i: nat, b: BalanceState)
    requires Inv(m) && pk in m.pools && SlotFits(m, pk, a, i) && BalanceFits(b, pk)
    ensures AccountOk(m.accounts[a].(balances := m.accounts[a].balances[i := b]), m.pools.Keys)
  {
    var bs := m.accounts[a].balances;
    assert AccountOk(m.accounts[a], m.pools.Keys);
    var bs' := bs[i := b];
    forall k, j | 0 <= k < j < |bs'| && bs'[k].active && bs'[j].active
      ensures bs'[k].bankPk != bs'[j].bankPk
    {
      assert Distinct(bs);
      if k == i && !bs[i].active {
        assert !(bs[j].active && bs[j].bankPk == pk);
      }
      if j == i && !bs[i].active {
        assert !(bs[k].active && bs[k].bankPk == pk);
      }
    }
  }

  /** Replacing a pool and a balance keeps the invariant when the bank books
      exactly what the balance gains. */
  lemma PutKeepsInv(m: Market, pk: nat, pool: Pool, a: nat, i: nat, b: BalanceState)
    requires Inv(m) && pk in m.pools && SlotFits(m, pk, a, i) && BalanceFits(b, pk) && PoolOk(pool)
    requires forall q :: q in QUANTITIES ==>
               Booked(pool, q) - Booked(m.pools[pk], q)
               == Holding(b, pk, q) - Holding(m.accounts[a].balances[i], pk, q)
    ensures Inv(m.Put(pk, pool, a, i, b))
  {
    var m' := m.Put(pk, pool, a, i, b);
    assert m'.pools.Keys == m.pools.Keys;
    forall c | 0 <= c < |m'.accounts|
      ensures AccountOk(m'.accounts[c], m'.pools.Keys)
    {
      assert AccountOk(m.accounts[c], m.pools.Keys);
      if c == a {
        PutKeepsAccount(m, pk, a, i, b);
      }
    }
    forall k | k in m'.pools
      ensures PoolOk(m'.pools[k]) && Agrees(m', k)
    {
      assert PoolOk(m.pools[k]) && Agrees(m, k);
      forall q | q in QUANTITIES
        ensures Booked(m'.pools[k], q) == SumAccounts(m'.accounts, k, q)
      {
        SumAccountsUpdate(m.accounts, a, m'.accounts[a], k, q);
        SumBalancesUpdate(m.accounts[a].balances, i, b, k, q);
        assert AccountOk(m.accounts[a], m.pools.Keys);
      }
    }
  }

  /** Replacing a pool keeps the invariant when it books the same. */
  lemma PutPoolKeepsInv(m: Market, pk: nat, pool: Pool)
    requires Inv(m) && pk in m.pools && PoolOk(pool)
    requires forall q :: q in QUANTITIES ==> Booked(pool, q) == Booked(m.pools[pk], q)
    ensures Inv(m.PutPool(pk, pool))
  {
    var m' := m.PutPool(pk, pool);
    assert m'.pools.Keys == m.pools.Keys;
    forall c | 0 <= c < |m'.accounts|
      ensures AccountOk(m'.accounts[c], m'.pools.Keys)
    {
      assert AccountOk(m.accounts[c], m.pools.Keys);
    }
    forall k | k in m'.pools
      ensures PoolOk(m'.pools[k]) && Agrees(m', k)
    {
      assert PoolOk(m.pools[k]) && Agrees(m, k);
    }
  }

  /** The slot found fits, and its balance is sound and covered by the books. */
  lemma SlotForFits(m: Market, pk: nat, a: nat, create: bool, now: nat)
    requires Inv(m) && pk in m.pools && a < |m.accounts|
    requires SlotFor(m.accounts[a].balances, pk, create, now).Ok?
    ensures var (i, b) := SlotFor(m.accounts[a].balances, pk, create, now).value;
            && SlotFits(m, pk, a, i) && BalanceFits(b, pk) && b.active
            && (forall q :: q in QUANTITIES ==> Holding(b, pk, q) == Holding(m.accounts[a].balances[i], pk, q))
            && Backed(Position(m.pools[pk].bank, b))
  {
    var bs := m.accounts[a].balances;
    var (i, b) := SlotFor(bs, pk, create, now).value;
    assert AccountOk(m.accounts[a], m.pools.Keys);
    assert SlotOk(bs[i], m.pools.Keys);
    assert PoolOk(m.pools[pk]);
    HoldingIsBooked(m, pk, a, i, AssetQ);
    HoldingIsBooked(m, pk, a, i, LiabilityQ);
  }
}
