/** What each building block of an instruction does to the market: it keeps the
    invariant, touches one bank, and changes the bank's net position by the
    tokens it accounts for, up to rounding. */
module Effects {
  import opened FixedPoint
  import opened Valuation
  import opened Banks
  import opened Positions
  import opened TransferFees
  import opened Ledger
  import opened Instructions

  /** Tokens in the vault beyond what the bank owes, exact, in units of 2^-96. */
  function Net(pool: Pool): int {
    pool.vault * ONE * ONE - pool.bank.NetClaims()
  }

  /** From `m` to `m'` the net position of bank `k` moves by between `low` and
      `high`, and its debts do not lose value. */
  predicate Within(m: Market, m': Market, k: nat, low: int, high: int) {
    && k in m.pools
    && m'.pools.Keys == m.pools.Keys && m'.fees == m.fees && |m'.accounts| == |m.accounts|
    && m.pools[k].bank.liabilityShareValue <= m'.pools[k].bank.liabilityShareValue
    && low <= Net(m'.pools[k]) - Net(m.pools[k]) <= high
  }

  /** A change to bank `pk` alone, in which its deposits do not lose value. */
  predicate Moves(m: Market, m': Market, pk: nat, low: int, high: int) {
    && Within(m, m', pk, low, high)
    && m.pools[pk].bank.assetShareValue <= m'.pools[pk].bank.assetShareValue
    && (forall k :: k in m.pools && k != pk ==> m'.pools[k] == m.pools[k])
  }

  /** A change in which no balance of bank `pk` closes. */
  predicate Evolves(m: Market, m': Market, pk: nat, low: int, high: int) {
    && Moves(m, m', pk, low, high)
    && m'.pools[pk].droppedAssets == m.pools[pk].droppedAssets
    && m'.pools[pk].droppedLiabilities == m.pools[pk].droppedLiabilities
    && m'.pools[pk].emissionsForfeited == m.pools[pk].emissionsForfeited
  }

  lemma WithinThen(m: Market, m1: Market, m2: Market, k: nat, l1: int, h1: int, l2: int, h2: int)
    requires Within(m, m1, k, l1, h1) && Within(m1, m2, k, l2, h2)
    ensures Within(m, m2, k, l1 + l2, h1 + h2)
  {
  }

  lemma MovesThen(m: Market, m1: Market, m2: Market, pk: nat, l1: int, h1: int, l2: int, h2: int)
    requires Moves(m, m1, pk, l1, h1) && Moves(m1, m2, pk, l2, h2)
    ensures Moves(m, m2, pk, l1 + l2, h1 + h2)
  {
  }

  lemma EvolvesThen(m: Market, m1: Market, m2: Market, pk: nat, l1: int, h1: int, l2: int, h2: int)
    requires Evolves(m, m1, pk, l1, h1) && Evolves(m1, m2, pk, l2, h2)
    ensures Evolves(m, m2, pk, l1 + l2, h1 + h2)
  {
    MovesThen(m, m1, m2, pk, l1, h1, l2, h2);
  }

  /** Share values and configuration are the same. */
  predicate SameTerms(b: BankState, b': BankState) {
    && b'.assetShareValue == b.assetShareValue && b'.liabilityShareValue == b.liabilityShareValue
    && b'.config == b.config && b'.mintDecimals == b.mintDecimals
  }

  /** The value of one ulp of each kind of share. */
  function Ulps(b: BankState): int {
    b.assetShareValue + b.liabilityShareValue
  }

  // ------------------------------------------------------------- one position

  /** Everything that leaves the balance enters the bank, and conversely. */
  predicate Transfers(p: Position, q: Position) {
    && q.Sound() && SameTerms(p.bank, q.bank)
    && q.balance.active == p.balance.active && q.balance.bankPk == p.balance.bankPk
    && q.bank.totalAssetShares - p.bank.totalAssetShares == q.balance.assetShares - p.balance.assetShares
    && q.bank.totalLiabilityShares - p.bank.totalLiabilityShares
       == q.balance.liabilityShares - p.balance.liabilityShares
    && q.bank.emissionsRemaining - p.bank.emissionsRemaining
       == p.balance.emissionsOutstanding - q.balance.emissionsOutstanding
  }

  lemma MovedClaims(p: Position, q: Position, x: int, y: int)
    requires Moved(p, q, x, y)
    ensures q.bank.NetClaims() - p.bank.NetClaims() == x * p.bank.assetShareValue - y * p.bank.liabilityShareValue
  {
  }

  lemma RaiseEffect(p: Position, delta: int, kind: IncreaseType)
    requires p.Sound() && Backed(p) && 0 <= delta && p.Raise(delta, kind).Ok?
    ensures var q := p.Raise(delta, kind).value;
            && Transfers(p, q)
            && 0 <= delta * ONE - (q.bank.NetClaims() - p.bank.NetClaims()) < Ulps(p.bank)
  {
    hide Position.Raise, RaiseShares, BankState.NetClaims;
    RaiseIs(p, delta, kind);
    RaiseRounding(p, delta);
    RaiseKeepsSound(p, delta, kind);
    var (x, y) := RaiseShares(p, delta);
    MovedClaims(p, p.Raise(delta, kind).value, x, -y);
  }

  lemma LowerEffect(p: Position, delta: int, kind: DecreaseType)
    requires p.Sound() && Backed(p) && 0 <= delta && p.Lower(delta, kind).Ok?
    ensures var q := p.Lower(delta, kind).value;
            && Transfers(p, q)
            && 0 <= delta * ONE + (q.bank.NetClaims() - p.bank.NetClaims()) < Ulps(p.bank)
  {
    hide Position.Lower, LowerShares, BankState.NetClaims;
    LowerIs(p, delta, kind);
    LowerRounding(p, delta);
    LowerKeepsSound(p, delta, kind);
    var (x, y) := LowerShares(p, delta);
    MovedClaims(p, p.Lower(delta, kind).value, -x, y);
  }

  /** Claiming emissions first does not change what a transfer does. */
  lemma AfterClaim(p: Position, c: Position, q: Position, claimed: int, now: nat)
    requires Claimed(p, c, claimed, now) && Transfers(c, q)
    ensures Transfers(p, q) && Ulps(p.bank) == Ulps(c.bank) && p.bank.NetClaims() == c.bank.NetClaims()
  {
  }

  lemma IncreaseEffect(p: Position, delta: int, kind: IncreaseType, now: nat)
    requires p.Sound() && Backed(p) && 0 <= delta && p.Increase(delta, kind, now).Ok?
    ensures var q := p.Increase(delta, kind, now).value;
            && Transfers(p, q)
            && 0 <= delta * ONE - (q.bank.NetClaims() - p.bank.NetClaims()) < Ulps(p.bank)
  {
    ClaimMoves(p, now);
    var c := p.ClaimEmissions(now).value;
    RaiseEffect(c, delta, kind);
    AfterClaim(p, c, c.Raise(delta, kind).value,
               c.balance.emissionsOutstanding - p.balance.emissionsOutstanding, now);
  }

  lemma DecreaseEffect(p: Position, delta: int, kind: DecreaseType, now: nat)
    requires p.Sound() && Backed(p) && 0 <= delta && p.Decrease(delta, kind, now).Ok?
    ensures var q := p.Decrease(delta, kind, now).value;
            && Transfers(p, q)
            && 0 <= delta * ONE + (q.bank.NetClaims() - p.bank.NetClaims()) < Ulps(p.bank)
  {
    ClaimMoves(p, now);
    var c := p.ClaimEmissions(now).value;
    LowerEffect(c, delta, kind);
    AfterClaim(p, c, c.Lower(delta, kind).value,
               c.balance.emissionsOutstanding - p.balance.emissionsOutstanding, now);
  }

  // --------------------------------------------------------------- the market

  /** Replacing a pool and a balance so that the books stay in order moves the
      pool's net position and nothing else. */
  lemma PutMoves(m: Market, pk: nat, pool: Pool, a: nat, i: nat, b: BalanceState)
    requires Inv(m) && pk in m.pools && SlotFits(m, pk, a, i) && BalanceFits(b, pk) && PoolOk(pool)
    requires m.pools[pk].bank.assetShareValue <= pool.bank.assetShareValue
    requires m.pools[pk].bank.liabilityShareValue <= pool.bank.liabilityShareValue
    requires forall q :: q in QUANTITIES ==>
               Booked(pool, q) - Booked(m.pools[pk], q)
               == Holding(b, pk, q) - Holding(m.accounts[a].balances[i], pk, q)
    ensures Inv(m.Put(pk, pool, a, i, b))
    ensures Moves(m, m.Put(pk, pool, a, i, b), pk, Net(pool) - Net(m.pools[pk]), Net(pool) - Net(m.pools[pk]))
  {
    PutKeepsInv(m, pk, pool, a, i, b);
  }

  /** Putting back a position that only transferred keeps the books in order. */
  lemma PutTransfer(m: Market, a: nat, pk: nat, i: nat, p: Position, q: Position)
    requires Inv(m) && pk in m.pools && SlotFits(m, pk, a, i) && BalanceFits(p.balance, pk) && p.balance.active
    requires p.bank == m.pools[pk].bank && Transfers(p, q)
    requires forall x :: x in QUANTITIES ==> Holding(p.balance, pk, x) == Holding(m.accounts[a].balances[i], pk, x)
    ensures var m' := m.Put(pk, m.pools[pk].(bank := q.bank), a, i, q.balance);
            var change := p.bank.NetClaims() - q.bank.NetClaims();
            Inv(m') && Evolves(m, m', pk, change, change)
  {
    assert PoolOk(m.pools[pk]);
    PutMoves(m, pk, m.pools[pk].(bank := q.bank), a, i, q.balance);
  }

  /** Replacing a bank by one with the same shares and emissions moves its net
      position by the difference in claims. */
  lemma PutBank(m: Market, pk: nat, bank: BankState)
    requires Inv(m) && pk in m.pools && bank.Healthy()
    requires bank.totalAssetShares == m.pools[pk].bank.totalAssetShares
    requires bank.totalLiabilityShares == m.pools[pk].bank.totalLiabilityShares
    requires bank.emissionsRemaining == m.pools[pk].bank.emissionsRemaining
    requires m.pools[pk].bank.assetShareValue <= bank.assetShareValue
    requires m.pools[pk].bank.liabilityShareValue <= bank.liabilityShareValue
    ensures var change := m.pools[pk].bank.NetClaims() - bank.NetClaims();
            && Inv(m.PutPool(pk, m.pools[pk].(bank := bank)))
            && Evolves(m, m.PutPool(pk, m.pools[pk].(bank := bank)), pk, change, change)
  {
    assert PoolOk(m.pools[pk]);
    PutPoolKeepsInv(m, pk, m.pools[pk].(bank := bank));
  }

  lemma AccrueAtEffect(m: Market, pk: nat, now: nat)
    requires Inv(m) && AccrueAt(m, pk, now).Ok?
    ensures pk in m.pools
    ensures var m', b := AccrueAt(m, pk, now).value, m.pools[pk].bank;
            && Inv(m') && Evolves(m, m', pk, -AccrualCredit(b, now, m.fees), AccrualDebit(b, now, m.fees))
            && AfterInterest(b, m'.pools[pk].bank)
            && m'.accounts == m.accounts && m'.pools[pk] == m.pools[pk].(bank := m'.pools[pk].bank)
  {
    var pool := m.pools[pk];
    assert PoolOk(pool);
    AccrualShape(pool.bank, now, m.fees);
    AccrualBalances(pool.bank, now, m.fees);
    PutBank(m, pk, pool.bank.AccrueInterest(now, m.fees).value);
  }

  lemma PayInEffect(m: Market, a: nat, pk: nat, delta: int, kind: IncreaseType, create: bool, now: nat)
    requires Inv(m) && 0 <= delta && PayIn(m, a, pk, delta, kind, create, now).Ok?
    ensures pk in m.pools
    ensures var m', b := PayIn(m, a, pk, delta, kind, create, now).value, m.pools[pk].bank;
            && Inv(m') && Evolves(m, m', pk, -delta * ONE, -delta * ONE + Ulps(b) - 1)
            && SameTerms(b, m'.pools[pk].bank)
  {
    assert PoolOk(m.pools[pk]);
    SlotForFits(m, pk, a, create, now);
    var (i, p) := PositionAt(m, a, pk, create, now).value;
    IncreaseEffect(p, delta, kind, now);
    PutTransfer(m, a, pk, i, p, p.Increase(delta, kind, now).value);
  }

  lemma PayOutEffect(m: Market, a: nat, pk: nat, delta: int, kind: DecreaseType, create: bool, now: nat)
    requires Inv(m) && 0 <= delta && PayOut(m, a, pk, delta, kind, create, now).Ok?
    ensures pk in m.pools
    ensures var m', b := PayOut(m, a, pk, delta, kind, create, now).value, m.pools[pk].bank;
            && Inv(m') && Evolves(m, m', pk, delta * ONE - Ulps(b) + 1, delta * ONE)
            && SameTerms(b, m'.pools[pk].bank)
  {
    assert PoolOk(m.pools[pk]);
    SlotForFits(m, pk, a, create, now);
    var (i, p) := PositionAt(m, a, pk, create, now).value;
    DecreaseEffect(p, delta, kind, now);
    PutTransfer(m, a, pk, i, p, p.Decrease(delta, kind, now).value);
  }

  lemma MoveVaultEffect(m: Market, pk: nat, tokens: int)
    requires Inv(m) && MoveVault(m, pk, tokens).Ok?
    ensures pk in m.pools
    ensures var m' := MoveVault(m, pk, tokens).value;
            && Inv(m') && Evolves(m, m', pk, tokens * ONE * ONE, tokens * ONE * ONE)
            && m'.pools[pk] == m.pools[pk].(vault := m'.pools[pk].vault) && m'.accounts == m.accounts
  {
    hide Inv;
    PoolIsOk(m, pk);
    PutPoolKeepsInv(m, pk, m.pools[pk].(vault := m.pools[pk].vault + tokens));
  }

  /** Whatever the transfer fee, exactly `amount` arrives. */
  lemma FillVaultEffect(m: Market, pk: nat, fee: TransferFee, amount: nat)
    requires Inv(m) && fee.basisPoints <= 0xFFFF && amount <= U64_MAX && FillVault(m, pk, fee, amount).Ok?
    ensures pk in m.pools
    ensures var m' := FillVault(m, pk, fee, amount).value;
            && Inv(m') && Evolves(m, m', pk, amount * ONE * ONE, amount * ONE * ONE)
            && m'.pools[pk] == m.pools[pk].(vault := m'.pools[pk].vault) && m'.accounts == m.accounts
  {
    PreFeeIsLeast(fee, amount);
    MoveVaultEffect(m, pk, Received(fee, PreFee(fee, amount).value));
  }

  /** Between `p` and `p'` the shares dropped are worth less than 0.0001 tokens
      on each side, and less than one token of emissions is forfeited. */
  predicate DropsDust(p: Pool, p': Pool) {
    && 0 <= p'.droppedAssets - p.droppedAssets
    && Product(p'.droppedAssets - p.droppedAssets, p'.bank.assetShareValue) < ZERO_AMOUNT_THRESHOLD
    && 0 <= p'.droppedLiabilities - p.droppedLiabilities
    && Product(p'.droppedLiabilities - p.droppedLiabilities, p'.bank.liabilityShareValue) < ZERO_AMOUNT_THRESHOLD
    && 0 <= p'.emissionsForfeited - p.emissionsForfeited < ONE
  }

  lemma DrainVaultEffect(m: Market, pk: nat, amount: nat)
    requires Inv(m) && DrainVault(m, pk, amount).Ok?
    ensures pk in m.pools
    ensures var m', value := DrainVault(m, pk, amount).value, amount * ONE * ONE;
            && Inv(m') && Evolves(m, m', pk, -value, -value)
            && m'.pools[pk] == m.pools[pk].(vault := m'.pools[pk].vault) && m'.accounts == m.accounts
  {
    hide MoveVault, Inv, Net;
    MoveVaultEffect(m, pk, 0 - amount);
  }

  /** The bank keeps exactly the shares recorded as dropped. */
  predicate Closes(p: Position, c: Position, after: BankState, assets: int, liabilities: int) {
    && after.Healthy() && SameTerms(p.bank, after)
    && 0 <= assets && Product(assets, p.bank.assetShareValue) < ZERO_AMOUNT_THRESHOLD
    && 0 <= liabilities && Product(liabilities, p.bank.liabilityShareValue) < ZERO_AMOUNT_THRESHOLD
    && after.totalAssetShares == p.bank.totalAssetShares - p.balance.assetShares + assets
    && after.totalLiabilityShares == p.bank.totalLiabilityShares - p.balance.liabilityShares + liabilities
    && after.emissionsRemaining == c.bank.emissionsRemaining
    && 0 <= c.balance.emissionsOutstanding < ONE
    && c.bank.emissionsRemaining + c.balance.emissionsOutstanding
       == p.bank.emissionsRemaining + p.balance.emissionsOutstanding
  }

  /** Closing a balance keeps the books in order and drops only dust. */
  lemma PutClosedKeeps(m: Market, a: nat, pk: nat, i: nat, p: Position, c: Position, after: BankState,
                       assets: int, liabilities: int, low: int, high: int)
    requires Inv(m) && pk in m.pools && SlotFits(m, pk, a, i) && BalanceFits(p.balance, pk) && p.balance.active
    requires p.bank == m.pools[pk].bank && Closes(p, c, after, assets, liabilities)
    requires low <= p.bank.NetClaims() - after.NetClaims() <= high
    requires forall x :: x in QUANTITIES ==> Holding(p.balance, pk, x) == Holding(m.accounts[a].balances[i], pk, x)
    ensures var m' := m.Put(pk, ClosedPool(m.pools[pk], c.balance, after, assets, liabilities), a, i, EMPTY_BALANCE);
            && Inv(m') && Moves(m, m', pk, low, high) && DropsDust(m.pools[pk], m'.pools[pk])
            && SameTerms(p.bank, m'.pools[pk].bank)
  {
    var pool := m.pools[pk];
    var pool' := ClosedPool(pool, c.balance, after, assets, liabilities);
    assert PoolOk(pool);
    ClosedBooks(pool, p, c, after, assets, liabilities, pk);
    PutMoves(m, pk, pool', a, i, EMPTY_BALANCE);
  }

  lemma ClosedBooks(pool: Pool, p: Position, c: Position, after: BankState, assets: int, liabilities: int, pk: nat)
    requires PoolOk(pool) && p.bank == pool.bank && p.balance.active && p.balance.bankPk == pk
    requires Closes(p, c, after, assets, liabilities)
    ensures var pool' := ClosedPool(pool, c.balance, after, assets, liabilities);
            && PoolOk(pool')
            && forall x :: x in QUANTITIES ==> Booked(pool', x) - Booked(pool, x) == -Holding(p.balance, pk, x)
  {
  }

  /** The bank and what is left out of its claims when a balance is paid out in
      full or paid off in full. */
  lemma TakeAllEffect(p: Position)
    requires p.Sound() && Backed(p) && p.TakeAll().Ok?
    ensures var (q, paid) := p.TakeAll().value;
            && q.bank == p.bank.(totalAssetShares := p.bank.totalAssetShares - p.balance.assetShares,
                                 insuranceFees := q.bank.insuranceFees)
            && q.bank.Healthy() && q.balance == EMPTY_BALANCE
            && 0 <= p.bank.NetClaims() - q.bank.NetClaims() - paid * ONE * ONE < ONE
            && Product(p.balance.liabilityShares, p.bank.liabilityShareValue) < ZERO_AMOUNT_THRESHOLD
            && p.balance.emissionsOutstanding < ONE
  {
    TakeAllIs(p);
    var (q, paid) := p.TakeAll().value;
    var amount := Product(p.balance.assetShares, p.bank.assetShareValue);
    assert p.bank.NetClaims() - q.bank.NetClaims()
        == p.balance.assetShares * p.bank.assetShareValue - ONE * (amount - paid * ONE);
  }

  lemma PayAllEffect(p: Position)
    requires p.Sound() && Backed(p) && p.PayAll().Ok?
    ensures var (q, paid) := p.PayAll().value;
            && q.bank == p.bank.(totalLiabilityShares := p.bank.totalLiabilityShares - p.balance.liabilityShares,
                                 insuranceFees := q.bank.insuranceFees)
            && q.bank.Healthy() && q.balance == EMPTY_BALANCE
            && 0 <= q.bank.NetClaims() - p.bank.NetClaims() - paid * ONE * ONE < ONE
            && Product(p.balance.assetShares, p.bank.assetShareValue) < ZERO_AMOUNT_THRESHOLD
            && p.balance.emissionsOutstanding < ONE && paid <= U64_MAX
  {
    PayAllIs(p);
    var (q, paid) := p.PayAll().value;
    var amount := Product(p.balance.liabilityShares, p.bank.liabilityShareValue);
    assert q.bank.NetClaims() - p.bank.NetClaims()
        == p.balance.liabilityShares * p.bank.liabilityShareValue + ONE * (paid * ONE - amount);
  }

  lemma TakeAllAtEffect(m: Market, a: nat, pk: nat, now: nat)
    requires Inv(m) && TakeAllAt(m, a, pk, now).Ok?
    ensures pk in m.pools
    ensures var (m', paid) := TakeAllAt(m, a, pk, now).value;
            && Inv(m') && Moves(m, m', pk, paid * ONE * ONE, paid * ONE * ONE + ONE - 1)
            && DropsDust(m.pools[pk], m'.pools[pk])
  {
    assert PoolOk(m.pools[pk]);
    SlotForFits(m, pk, a, false, now);
    var (i, p) := PositionAt(m, a, pk, false, now).value;
    ClaimMoves(p, now);
    var c := p.ClaimEmissions(now).value;
    TakeAllEffect(c);
    var (q, paid) := c.TakeAll().value;
    PutClosedKeeps(m, a, pk, i, p, c, q.bank, 0, p.balance.liabilityShares,
                   paid * ONE * ONE, paid * ONE * ONE + ONE - 1);
  }

  lemma PayAllAtEffect(m: Market, a: nat, pk: nat, now: nat)
    requires Inv(m) && PayAllAt(m, a, pk, now).Ok?
    ensures pk in m.pools
    ensures var (m', paid) := PayAllAt(m, a, pk, now).value;
            && Inv(m') && Moves(m, m', pk, 0 - paid * ONE * ONE - ONE + 1, 0 - paid * ONE * ONE)
            && paid <= U64_MAX
            && DropsDust(m.pools[pk], m'.pools[pk])
  {
    assert PoolOk(m.pools[pk]);
    SlotForFits(m, pk, a, false, now);
    var (i, p) := PositionAt(m, a, pk, false, now).value;
    ClaimMoves(p, now);
    var c := p.ClaimEmissions(now).value;
    PayAllEffect(c);
    var (q, paid) := c.PayAll().value;
    PutClosedKeeps(m, a, pk, i, p, c, q.bank, p.balance.assetShares, 0,
                   0 - paid * ONE * ONE - ONE + 1, 0 - paid * ONE * ONE);
  }

  lemma CloseAtEffect(m: Market, a: nat, pk: nat, now: nat)
    requires Inv(m) && CloseAt(m, a, pk, now).Ok?
    ensures pk in m.pools
    ensures var m' := CloseAt(m, a, pk, now).value;
            Inv(m') && Moves(m, m', pk, 0, 0) && DropsDust(m.pools[pk], m'.pools[pk])
  {
    assert PoolOk(m.pools[pk]);
    SlotForFits(m, pk, a, false, now);
    var (i, p) := PositionAt(m, a, pk, false, now).value;
    ClaimMoves(p, now);
    var c := p.ClaimEmissions(now).value;
    ProductBounds(p.balance.assetShares, p.bank.assetShareValue);
    ProductBounds(p.balance.liabilityShares, p.bank.liabilityShareValue);
    PutClosedKeeps(m, a, pk, i, p, c, c.bank, p.balance.assetShares, p.balance.liabilityShares, 0, 0);
  }
}
