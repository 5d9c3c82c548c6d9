/** Conservation by each instruction: the books keep agreeing with the balances, and
    a vault drifts from what its bank owes by no more than rounding. */
module Conservation {
  import opened Results
  import opened FixedPoint
  import opened Interest
  import opened Valuation
  import opened Banks
  import opened Positions
  import opened TransferFees
  import opened Prices
  import opened Ledger
  import opened Instructions
  import opened Effects

  // -------------------------------------------------------- one instruction

  /** Bank `pk` once interest is charged. */
  function AccruedBank(m: Market, pk: nat, now: nat): BankState
    requires pk in m.pools
  {
    var r := m.pools[pk].bank.AccrueInterest(now, m.fees);
    if r.Ok? then r.value else m.pools[pk].bank
  }

  function CreditAt(m: Market, pk: nat, now: nat): int
    requires pk in m.pools
  {
    AccrualCredit(m.pools[pk].bank, now, m.fees)
  }

  function DebitAt(m: Market, pk: nat, now: nat): int
    requires pk in m.pools
  {
    AccrualDebit(m.pools[pk].bank, now, m.fees)
  }

  predicate FeeOk(fee: TransferFee) {
    fee.basisPoints <= ONE_IN_BASIS_POINTS
  }

  lemma DepositEffect(m: Market, a: nat, pk: nat, amount: nat, fee: TransferFee, now: nat)
    requires Inv(m) && FeeOk(fee) && amount <= U64_MAX && Deposit(m, a, pk, amount, fee, now).Ok?
    ensures pk in m.pools
    ensures Inv(Deposit(m, a, pk, amount, fee, now).value)
    ensures Evolves(m, Deposit(m, a, pk, amount, fee, now).value, pk,
                    -CreditAt(m, pk, now), DebitAt(m, pk, now) + Ulps(AccruedBank(m, pk, now)) - 1)
  {
    var m1 := AccrueAt(m, pk, now).value;
    AccrueAtEffect(m, pk, now);
    var m2 := PayIn(m1, a, pk, amount * ONE, AnyIncrease, true, now).value;
    PayInEffect(m1, a, pk, amount * ONE, AnyIncrease, true, now);
    var m3 := FillVault(m2, pk, fee, amount).value;
    FillVaultEffect(m2, pk, fee, amount);
    Settled(m, m1, m2, m3, pk, -CreditAt(m, pk, now), DebitAt(m, pk, now),
            0, Ulps(AccruedBank(m, pk, now)) - 1, amount * ONE * ONE);
  }

  /** Interest, then a change to a position, then the tokens it is about. */
  lemma Settled(m: Market, m1: Market, m2: Market, m3: Market, pk: nat, l1: int, h1: int, low: int, high: int, value: int)
    requires Moves(m, m1, pk, l1, h1)
    requires Moves(m1, m2, pk, low - value, high - value)
    requires Moves(m2, m3, pk, value, value)
    ensures Moves(m, m3, pk, l1 + low, h1 + high)
  {
    MovesThen(m1, m2, m3, pk, low - value, high - value, value, value);
    MovesThen(m, m1, m3, pk, l1, h1, low, high);
  }

  lemma RepayEffect(m: Market, a: nat, pk: nat, amount: nat, fee: TransferFee, now: nat)
    requires Inv(m) && FeeOk(fee) && amount <= U64_MAX && Repay(m, a, pk, amount, fee, now).Ok?
    ensures pk in m.pools
    ensures Inv(Repay(m, a, pk, amount, fee, now).value)
    ensures Evolves(m, Repay(m, a, pk, amount, fee, now).value, pk,
                    -CreditAt(m, pk, now), DebitAt(m, pk, now) + Ulps(AccruedBank(m, pk, now)) - 1)
  {
    var m1 := AccrueAt(m, pk, now).value;
    AccrueAtEffect(m, pk, now);
    var m2 := PayIn(m1, a, pk, amount * ONE, RepayOnly, false, now).value;
    PayInEffect(m1, a, pk, amount * ONE, RepayOnly, false, now);
    var m3 := FillVault(m2, pk, fee, amount).value;
    FillVaultEffect(m2, pk, fee, amount);
    Settled(m, m1, m2, m3, pk, -CreditAt(m, pk, now), DebitAt(m, pk, now),
            0, Ulps(AccruedBank(m, pk, now)) - 1, amount * ONE * ONE);
  }

  lemma TakeOutEffect(m: Market, a: nat, pk: nat, amount: nat, fee: TransferFee, now: nat)
    requires Inv(m) && TakeOut(m, a, pk, amount, fee, now).Ok?
    ensures pk in m.pools
    ensures Inv(TakeOut(m, a, pk, amount, fee, now).value)
    ensures Evolves(m, TakeOut(m, a, pk, amount, fee, now).value, pk,
                    -CreditAt(m, pk, now) - Ulps(AccruedBank(m, pk, now)) + 1, DebitAt(m, pk, now))
  {
    var m1 := AccrueAt(m, pk, now).value;
    AccrueAtEffect(m, pk, now);
    var sent := PreFee(fee, amount).value;
    var m2 := PayOut(m1, a, pk, sent * ONE, WithdrawOnly, false, now).value;
    PayOutEffect(m1, a, pk, sent * ONE, WithdrawOnly, false, now);
    DrainVaultEffect(m2, pk, sent);
    Settled(m, m1, m2, DrainVault(m2, pk, sent).value, pk, -CreditAt(m, pk, now), DebitAt(m, pk, now),
            -Ulps(AccruedBank(m, pk, now)) + 1, 0, -(sent * ONE * ONE));
  }

  // ------------------------------------------------ closing a balance

  lemma DustAcross(p: Pool, p1: Pool, p2: Pool, p3: Pool)
    requires p1.droppedAssets == p.droppedAssets && p1.droppedLiabilities == p.droppedLiabilities
    requires p1.emissionsForfeited == p.emissionsForfeited
    requires DropsDust(p1, p2)
    requires p3 == p2.(vault := p3.vault)
    ensures DropsDust(p, p3)
  {
  }

  lemma RepayAllEffect(m: Market, a: nat, pk: nat, fee: TransferFee, now: nat)
    requires Inv(m) && FeeOk(fee) && RepayAll(m, a, pk, fee, now).Ok?
    ensures pk in m.pools
    ensures var m' := RepayAll(m, a, pk, fee, now).value;
            && Inv(m') && Moves(m, m', pk, -CreditAt(m, pk, now) - ONE + 1, DebitAt(m, pk, now))
            && DropsDust(m.pools[pk], m'.pools[pk])
  {
    var m1 := AccrueAt(m, pk, now).value;
    AccrueAtEffect(m, pk, now);
    var (m2, due) := PayAllAt(m1, a, pk, now).value;
    PayAllAtEffect(m1, a, pk, now);
    var m3 := FillVault(m2, pk, fee, due).value;
    FillVaultEffect(m2, pk, fee, due);
    Settled(m, m1, m2, m3, pk, -CreditAt(m, pk, now), DebitAt(m, pk, now), -ONE + 1, 0, due * ONE * ONE);
    DustAcross(m.pools[pk], m1.pools[pk], m2.pools[pk], m3.pools[pk]);
  }

  lemma TakeAllOutEffect(m: Market, a: nat, pk: nat, now: nat)
    requires Inv(m) && TakeAllOut(m, a, pk, now).Ok?
    ensures pk in m.pools
    ensures var m' := TakeAllOut(m, a, pk, now).value;
            && Inv(m') && Moves(m, m', pk, -CreditAt(m, pk, now), DebitAt(m, pk, now) + ONE - 1)
            && DropsDust(m.pools[pk], m'.pools[pk])
  {
    var m1 := AccrueAt(m, pk, now).value;
    AccrueAtEffect(m, pk, now);
    var (m2, paid) := TakeAllAt(m1, a, pk, now).value;
    TakeAllAtEffect(m1, a, pk, now);
    DrainVaultEffect(m2, pk, paid);
    var m3 := DrainVault(m2, pk, paid).value;
    Settled(m, m1, m2, m3, pk, -CreditAt(m, pk, now), DebitAt(m, pk, now), 0, ONE - 1, -(paid * ONE * ONE));
    DustAcross(m.pools[pk], m1.pools[pk], m2.pools[pk], m3.pools[pk]);
  }

  lemma CloseBalanceEffect(m: Market, a: nat, pk: nat, now: nat)
    requires Inv(m) && CloseBalance(m, a, pk, now).Ok?
    ensures pk in m.pools
    ensures var m' := CloseBalance(m, a, pk, now).value;
            && Inv(m') && Moves(m, m', pk, -CreditAt(m, pk, now), DebitAt(m, pk, now))
            && DropsDust(m.pools[pk], m'.pools[pk])
  {
    var m1 := AccrueAt(m, pk, now).value;
    AccrueAtEffect(m, pk, now);
    CloseAtEffect(m1, a, pk, now);
    var m2 := CloseAt(m1, a, pk, now).value;
    MovesThen(m, m1, m2, pk, -CreditAt(m, pk, now), DebitAt(m, pk, now), 0, 0);
    DustAcross(m.pools[pk], m1.pools[pk], m2.pools[pk], m2.pools[pk]);
  }

  // ------------------------------------------------------------- borrowing

  /** A fee is never negative, whatever rate is configured: it must fit a u64. */
  lemma OriginationFeeBounds(bank: BankState, sent: nat)
    requires OriginationFee(bank, sent).Ok?
    ensures 0 <= OriginationFee(bank, sent).value <= MAX
  {
  }

  /** What saturating at the range takes off a sum. */
  function Overflow(x: int): int {
    x - Saturated(x)
  }

  /** What saturation drops of an origination fee, `program` of it for the program. */
  function DroppedFee(bank: BankState, fee: int, program: int): int {
    Overflow(fee - program) + Overflow(bank.groupFees + Saturated(fee - program)) + Overflow(bank.programFees + program)
  }

  /** The program's part of a fee. */
  function ProgramPart(fees: ProgramFees, fee: int): int {
    if fees.rate == 0 then 0 else Product(fee, fees.rate)
  }

  /** Booking a fee raises claims by the fee less what saturation drops. */
  lemma WithOriginationFeeClaims(bank: BankState, fee: int, program: int)
    requires bank.Healthy()
    ensures var b := WithOriginationFee(bank, fee, program);
            b.Healthy() && b.NetClaims() == bank.NetClaims() + (fee - DroppedFee(bank, fee, program)) * ONE
  {
  }

  /** A fee shared out in full by a rate between 0 and 1 is booked in full exactly
      when neither counter overflows. */
  lemma FeeIsBookedInFull(bank: BankState, fee: int, program: int)
    requires bank.Healthy() && 0 <= program <= fee <= MAX
    ensures WithOriginationFee(bank, fee, program).NetClaims() == bank.NetClaims() + fee * ONE
            <==> bank.groupFees + (fee - program) <= MAX && bank.programFees + program <= MAX
  {
    WithOriginationFeeClaims(bank, fee, program);
  }

  /** The books of bank `pk` take in a borrow of `sent` tokens in full. */
  predicate BooksFee(bank: BankState, fees: ProgramFees, sent: nat) {
    var fee := OriginationFee(bank, sent);
    fee.Ok? && fee.value != 0 ==> DroppedFee(bank, fee.value, ProgramPart(fees, fee.value)) == 0
  }

  lemma BookOriginationFeeEffect(m: Market, pk: nat, fee: int)
    requires Inv(m) && pk in m.pools && BookOriginationFee(m, pk, fee).Ok?
    ensures var change := if fee == 0 then 0 else fee - DroppedFee(m.pools[pk].bank, fee, ProgramPart(m.fees, fee));
            && Inv(BookOriginationFee(m, pk, fee).value)
            && Evolves(m, BookOriginationFee(m, pk, fee).value, pk, -change * ONE, -change * ONE)
  {
    var bank := m.pools[pk].bank;
    PoolIsOk(m, pk);
    if fee != 0 {
      var program := ProgramPart(m.fees, fee);
      WithOriginationFeeClaims(bank, fee, program);
      PutBank(m, pk, WithOriginationFee(bank, fee, program));
    }
  }

  /** A borrow conserves if and only if saturation drops nothing of its fee. */
  lemma FeeConservesIff(m: Market, pk: nat, fee: int)
    requires Inv(m) && pk in m.pools && fee != 0 && BookOriginationFee(m, pk, fee).Ok?
    ensures pk in BookOriginationFee(m, pk, fee).value.pools
    ensures Net(BookOriginationFee(m, pk, fee).value.pools[pk]) == Net(m.pools[pk]) - fee * ONE
            <==> DroppedFee(m.pools[pk].bank, fee, ProgramPart(m.fees, fee)) == 0
  {
    hide Inv, BookOriginationFee, DroppedFee, ProgramPart;
    BookOriginationFeeEffect(m, pk, fee);
  }

  /** A borrow's three changes. */
  lemma Lent(m: Market, m1: Market, m2: Market, m3: Market, pk: nat, u: int, value: int, fee: int, booked: int)
    requires Evolves(m, m1, pk, value + fee - u + 1, value + fee)
    requires Evolves(m1, m2, pk, -value, -value)
    requires Evolves(m2, m3, pk, -booked, -booked)
    ensures Evolves(m, m3, pk, fee - booked - u + 1, fee - booked)
  {
    EvolvesThen(m1, m2, m3, pk, -value, -value, -booked, -booked);
    EvolvesThen(m, m1, m3, pk, value + fee - u + 1, value + fee, -value - booked, -value - booked);
  }

  /** Lending keeps the books in agreement, and conserves if its fee is booked in
      full. */
  lemma LendTokensEffect(m: Market, a: nat, pk: nat, sent: nat, now: nat)
    requires Inv(m) && LendTokens(m, a, pk, sent, now).Ok?
    ensures pk in m.pools
    ensures var m' := LendTokens(m, a, pk, sent, now).value;
            && Inv(m') && (exists low, high :: Evolves(m, m', pk, low, high))
            && (BooksFee(m.pools[pk].bank, m.fees, sent) ==> Evolves(m, m', pk, -Ulps(m.pools[pk].bank) + 1, 0))
  {
    hide PayOut, DrainVault, BookOriginationFee, OriginationFee, DroppedFee, ProgramPart, Inv, Net;
    PoolIsOk(m, pk);
    var fee := OriginationFee(m.pools[pk].bank, sent).value;
    OriginationFeeBounds(m.pools[pk].bank, sent);
    var delta := sent * ONE + fee;
    var m1 := PayOut(m, a, pk, delta, AnyDecrease, true, now).value;
    PayOutEffect(m, a, pk, delta, AnyDecrease, true, now);
    var m2 := DrainVault(m1, pk, sent).value;
    DrainVaultEffect(m1, pk, sent);
    BookOriginationFeeEffect(m2, pk, fee);
    PayOutKeepsFees(m, a, pk, delta, AnyDecrease, true, now);
    SameDropped(m.pools[pk].bank, m2.pools[pk].bank, fee, ProgramPart(m.fees, fee));
    var change := if fee == 0 then 0 else fee - DroppedFee(m2.pools[pk].bank, fee, ProgramPart(m2.fees, fee));
    Lent(m, m1, m2, BookOriginationFee(m2, pk, fee).value, pk, Ulps(m.pools[pk].bank), sent * ONE * ONE, fee * ONE,
         change * ONE);
  }

  lemma SameDropped(bank: BankState, bank': BankState, fee: int, program: int)
    requires bank.groupFees == bank'.groupFees && bank.programFees == bank'.programFees
    ensures DroppedFee(bank, fee, program) == DroppedFee(bank', fee, program)
  {
  }

  /** Taking out leaves fees and vault alone, and debts within deposits. */
  lemma PayOutKeepsFees(m: Market, a: nat, pk: nat, delta: int, kind: DecreaseType, create: bool, now: nat)
    requires Inv(m) && 0 <= delta && PayOut(m, a, pk, delta, kind, create, now).Ok?
    ensures pk in m.pools && pk in PayOut(m, a, pk, delta, kind, create, now).value.pools
    ensures var (p, p') := (m.pools[pk], PayOut(m, a, pk, delta, kind, create, now).value.pools[pk]);
            var (b, b') := (p.bank, p'.bank);
            && p'.vault == p.vault && SameTerms(b, b')
            && b'.insuranceFees == b.insuranceFees && b'.groupFees == b.groupFees && b'.programFees == b.programFees
            && b'.totalLiabilityShares * b.liabilityShareValue < b'.totalAssetShares * b.assetShareValue + ONE
  {
    hide Inv, Position.ClaimEmissions, Position.Lower, Product;
    SlotForFits(m, pk, a, create, now);
    PoolIsOk(m, pk);
    var (i, p) := PositionAt(m, a, pk, create, now).value;
    ClaimMoves(p, now);
    var c := p.ClaimEmissions(now).value;
    LowerIs(c, delta, kind);
    LowerRespects(c, delta, kind);
    var b := c.Lower(delta, kind).value.bank;
    ProductBounds(b.totalLiabilityShares, b.liabilityShareValue);
    ProductBounds(b.totalAssetShares, b.assetShareValue);
  }

  /** A market as it is in practice: the program takes a fraction of fees, no fee counter is
      negative, the vault holds a 64-bit amount, and the bank is not out of pocket
      by a quarter of the range. */
  predicate Ordinary(m: Market, pk: nat) {
    && pk in m.pools && 0 <= m.fees.rate <= ONE
    && var (pool, b) := (m.pools[pk], m.pools[pk].bank);
       && 0 <= b.insuranceFees && 0 <= b.groupFees && 0 <= b.programFees && pool.vault <= U64_MAX
       && b.assetShareValue <= MAX && b.liabilityShareValue <= MAX && -(MAX / 4 * ONE) <= Net(pool)
  }

  /** There no borrow overflows a counter: fees already booked are covered by the vault, as
      the borrow itself must leave debts within deposits. */
  lemma OrdinaryBorrowBooks(m: Market, a: nat, pk: nat, sent: nat, now: nat)
    requires Inv(m) && Ordinary(m, pk) && LendTokens(m, a, pk, sent, now).Ok?
    ensures BooksFee(m.pools[pk].bank, m.fees, sent)
  {
    hide Inv, PayOut, DrainVault, BookOriginationFee, OriginationFee, DroppedFee, ProgramPart, BankState.NetClaims;
    PoolIsOk(m, pk);
    var b := m.pools[pk].bank;
    var fee := OriginationFee(b, sent).value;
    OriginationFeeBounds(b, sent);
    var delta := sent * ONE + fee;
    var m1 := PayOut(m, a, pk, delta, AnyDecrease, true, now).value;
    PayOutEffect(m, a, pk, delta, AnyDecrease, true, now);
    PayOutKeepsFees(m, a, pk, delta, AnyDecrease, true, now);
    NetIs(m1.pools[pk]);
    if fee != 0 {
      RateOfFee(m.fees, fee);
      FitsCounters(b, fee, ProgramPart(m.fees, fee));
    }
  }

  lemma NetIs(pool: Pool)
    ensures var b := pool.bank;
            Net(pool) == pool.vault * ONE * ONE - b.totalAssetShares * b.assetShareValue
                         - ONE * (b.insuranceFees + b.groupFees + b.programFees)
                         + b.totalLiabilityShares * b.liabilityShareValue
  {
  }

  lemma RateOfFee(fees: ProgramFees, fee: int)
    requires 0 <= fees.rate <= ONE && 0 <= fee
    ensures 0 <= ProgramPart(fees, fee) <= fee
  {
    ProductGrows(fee, fees.rate, ONE);
  }

  lemma FitsCounters(b: BankState, fee: int, program: int)
    requires 0 <= b.groupFees && 0 <= b.programFees && 0 <= program <= fee
    requires b.groupFees + b.programFees + fee <= MAX
    ensures DroppedFee(b, fee, program) == 0
  {
  }

  /** Whether a borrow's fee will be booked in full. */
  predicate BorrowBooksFee(m: Market, pk: nat, amount: nat, fee: TransferFee, now: nat) {
    pk in m.pools && PreFee(fee, amount).Ok? ==> BooksFee(AccruedBank(m, pk, now), m.fees, PreFee(fee, amount).value)
  }

  lemma LendOutEffect(m: Market, a: nat, pk: nat, amount: nat, fee: TransferFee, now: nat)
    requires Inv(m) && LendOut(m, a, pk, amount, fee, now).Ok?
    ensures pk in m.pools
    ensures var m' := LendOut(m, a, pk, amount, fee, now).value;
            && Inv(m') && (exists low, high :: Evolves(m, m', pk, low, high))
            && (BorrowBooksFee(m, pk, amount, fee, now) ==>
                  Evolves(m, m', pk, -CreditAt(m, pk, now) - Ulps(AccruedBank(m, pk, now)) + 1, DebitAt(m, pk, now)))
  {
    hide Inv, Net, LendTokens, BooksFee, BankState.AccrueInterest, AccrualCredit, AccrualDebit, AfterInterest;
    var m1 := AccrueAt(m, pk, now).value;
    AccrueAtEffect(m, pk, now);
    var sent := PreFee(fee, amount).value;
    LendTokensEffect(m1, a, pk, sent, now);
    var m2 := LendTokens(m1, a, pk, sent, now).value;
    var low, high :| Evolves(m1, m2, pk, low, high);
    EvolvesThen(m, m1, m2, pk, -CreditAt(m, pk, now), DebitAt(m, pk, now), low, high);
    if BorrowBooksFee(m, pk, amount, fee, now) {
      EvolvesThen(m, m1, m2, pk, -CreditAt(m, pk, now), DebitAt(m, pk, now), -Ulps(m1.pools[pk].bank) + 1, 0);
    }
  }

  // ----------------------------------------------------- fees and emissions

  lemma PayableBounds(outstanding: int, available: int)
    requires ToU64(Payable(outstanding, available)).Ok?
    ensures var x := Payable(outstanding, available);
            0 <= x <= outstanding && x <= available && x == x / ONE * ONE
  {
  }

  /** Collecting fees pays exactly what it takes off the books. */
  lemma CollectedNet(pool: Pool)
    requires PoolOk(pool) && Collected(pool).Ok?
    ensures var pool' := Collected(pool).value;
            && pool' == pool.(vault := pool'.vault,
                              bank := pool.bank.(insuranceFees := pool'.bank.insuranceFees,
                                                 groupFees := pool'.bank.groupFees,
                                                 programFees := pool'.bank.programFees))
            && 0 <= pool'.vault && pool'.bank.Healthy() && Net(pool') == Net(pool)
  {
    hide Payable;
    var available := pool.vault * ONE;
    var insurance := Payable(pool.bank.insuranceFees, available);
    PayableBounds(pool.bank.insuranceFees, available);
    var group := Payable(pool.bank.groupFees, available - insurance);
    PayableBounds(pool.bank.groupFees, available - insurance);
    PayableBounds(pool.bank.programFees, available - insurance - group);
  }

  /** Fees are paid in whole tokens, to insurance first, then to the group, then to the
      program: whoever is owed a whole token more has exhausted the vault. */
  lemma FeesPaidInOrder(m: Market, pk: nat)
    requires Inv(m) && CollectFees(m, pk).Ok?
    ensures pk in m.pools && pk in CollectFees(m, pk).value.pools
    ensures var pool, pool' := m.pools[pk], CollectFees(m, pk).value.pools[pk];
            var (b, b', whole) := (pool.bank, pool'.bank, pool.vault * ONE);
            var insurance, group, program := b.insuranceFees - b'.insuranceFees, b.groupFees - b'.groupFees,
                                             b.programFees - b'.programFees;
            && 0 <= insurance && 0 <= group && 0 <= program
            && insurance + group + program == whole - pool'.vault * ONE
            && insurance == insurance / ONE * ONE && group == group / ONE * ONE
            && (ONE <= b'.insuranceFees ==> insurance == whole)
            && (ONE <= b'.groupFees ==> insurance + group == whole)
            && (ONE <= b'.programFees ==> insurance + group + program == whole)
  {
    hide Inv, Payable;
    PoolIsOk(m, pk);
    var pool := m.pools[pk];
    var available := pool.vault * ONE;
    var insurance := Payable(pool.bank.insuranceFees, available);
    PayableBounds(pool.bank.insuranceFees, available);
    PayableIs(pool.bank.insuranceFees, pool.vault);
    var group := Payable(pool.bank.groupFees, available - insurance);
    PayableBounds(pool.bank.groupFees, available - insurance);
    PayableIs(pool.bank.groupFees, pool.vault - insurance / ONE);
    PayableBounds(pool.bank.programFees, available - insurance - group);
    PayableIs(pool.bank.programFees, pool.vault - insurance / ONE - group / ONE);
  }

  lemma PayableIs(outstanding: int, tokens: int)
    ensures ONE <= outstanding - Payable(outstanding, tokens * ONE) ==> Payable(outstanding, tokens * ONE) == tokens * ONE
  {
  }

  lemma CollectFeesEffect(m: Market, pk: nat)
    requires Inv(m) && CollectFees(m, pk).Ok?
    ensures pk in m.pools && Inv(CollectFees(m, pk).value)
    ensures Evolves(m, CollectFees(m, pk).value, pk, 0, 0)
  {
    assert PoolOk(m.pools[pk]);
    CollectedNet(m.pools[pk]);
    PutPoolKeepsInv(m, pk, Collected(m.pools[pk]).value);
  }

  lemma SettleEmissionsEffect(m: Market, a: nat, pk: nat, now: nat)
    requires Inv(m) && SettleEmissions(m, a, pk, now).Ok?
    ensures pk in m.pools && Inv(SettleEmissions(m, a, pk, now).value)
    ensures Evolves(m, SettleEmissions(m, a, pk, now).value, pk, 0, 0)
  {
    assert PoolOk(m.pools[pk]);
    SlotForFits(m, pk, a, false, now);
    var (i, p) := PositionAt(m, a, pk, false, now).value;
    ClaimMoves(p, now);
    PutTransfer(m, a, pk, i, p, p.ClaimEmissions(now).value);
  }

  lemma EmissionsOnly(pool: Pool, bank: BankState, paid: int)
    requires bank == pool.bank.(emissionsRemaining := bank.emissionsRemaining)
    ensures Net(pool.(bank := bank, emissionsPaid := paid)) == Net(pool)
  {
  }

  lemma PutSettled(m: Market, a: nat, pk: nat, i: nat, p: Position, q: Position, paid: nat)
    requires Inv(m) && pk in m.pools && SlotFits(m, pk, a, i) && BalanceFits(p.balance, pk) && p.balance.active
    requires p.bank == m.pools[pk].bank && q.Sound()
    requires q.bank == p.bank.(emissionsRemaining := q.bank.emissionsRemaining)
    requires q.balance == p.balance.(emissionsOutstanding := q.balance.emissionsOutstanding,
                                     lastUpdate := q.balance.lastUpdate)
    requires q.bank.emissionsRemaining + q.balance.emissionsOutstanding + paid * ONE
             == p.bank.emissionsRemaining + p.balance.emissionsOutstanding
    requires forall x :: x in QUANTITIES ==> Holding(p.balance, pk, x) == Holding(m.accounts[a].balances[i], pk, x)
    ensures var pool := m.pools[pk];
            var m' := m.Put(pk, pool.(bank := q.bank, emissionsPaid := pool.emissionsPaid + paid), a, i, q.balance);
            Inv(m') && Evolves(m, m', pk, 0, 0)
  {
    hide Inv, Net, SlotFits;
    var pool := m.pools[pk];
    PoolIsOk(m, pk);
    EmissionsOnly(pool, q.bank, pool.emissionsPaid + paid);
    PutMoves(m, pk, pool.(bank := q.bank, emissionsPaid := pool.emissionsPaid + paid), a, i, q.balance);
  }

  lemma WithdrawEmissionsEffect(m: Market, a: nat, pk: nat, now: nat)
    requires Inv(m) && WithdrawEmissions(m, a, pk, now).Ok?
    ensures pk in m.pools && Inv(WithdrawEmissions(m, a, pk, now).value)
    ensures Evolves(m, WithdrawEmissions(m, a, pk, now).value, pk, 0, 0)
  {
    hide Net, SlotFits, Inv, Position.ClaimEmissions, Position.PayEmissions;
    PoolIsOk(m, pk);
    SlotForFits(m, pk, a, false, now);
    var (i, p) := PositionAt(m, a, pk, false, now).value;
    ClaimMoves(p, now);
    var c := p.ClaimEmissions(now).value;
    PayEmissionsMoves(c);
    var (q, paid) := c.PayEmissions().value;
    PutSettled(m, a, pk, i, p, q, paid);
    assert WithdrawEmissions(m, a, pk, now).value
        == m.Put(pk, m.pools[pk].(bank := q.bank, emissionsPaid := m.pools[pk].emissionsPaid + paid), a, i, q.balance);
  }

  lemma SetupEmissionsEffect(m: Market, pk: nat, lending: bool, borrowing: bool, rate: nat, total: nat)
    requires Inv(m) && SetupEmissions(m, pk, lending, borrowing, rate, total).Ok?
    ensures pk in m.pools && Inv(SetupEmissions(m, pk, lending, borrowing, rate, total).value)
    ensures Evolves(m, SetupEmissions(m, pk, lending, borrowing, rate, total).value, pk, 0, 0)
    ensures var pool, pool' := m.pools[pk], SetupEmissions(m, pk, lending, borrowing, rate, total).value.pools[pk];
            pool'.emissionsFunded - pool.emissionsFunded == total && pool'.bank.emissionsRemaining == total * ONE
  {
    assert PoolOk(m.pools[pk]);
    PutPoolKeepsInv(m, pk, SetupEmissions(m, pk, lending, borrowing, rate, total).value.pools[pk]);
  }

  lemma UpdateEmissionsEffect(m: Market, pk: nat, flags: Option<(bool, bool)>, rate: Option<nat>, additional: nat)
    requires Inv(m) && UpdateEmissions(m, pk, flags, rate, additional).Ok?
    ensures pk in m.pools && Inv(UpdateEmissions(m, pk, flags, rate, additional).value)
    ensures Evolves(m, UpdateEmissions(m, pk, flags, rate, additional).value, pk, 0, 0)
    ensures var pool, pool' := m.pools[pk], UpdateEmissions(m, pk, flags, rate, additional).value.pools[pk];
            && pool'.emissionsFunded - pool.emissionsFunded == additional
            && pool'.bank.emissionsRemaining == pool.bank.emissionsRemaining + additional * ONE
  {
    assert PoolOk(m.pools[pk]);
    PutPoolKeepsInv(m, pk, UpdateEmissions(m, pk, flags, rate, additional).value.pools[pk]);
  }

  lemma ConfigureEffect(m: Market, pk: nat, config: BankConfig)
    requires Inv(m) && ConfigureBank(m, pk, config).Ok?
    ensures pk in m.pools && Inv(ConfigureBank(m, pk, config).value)
    ensures Evolves(m, ConfigureBank(m, pk, config).value, pk, 0, 0)
  {
    assert PoolOk(m.pools[pk]);
    PutPoolKeepsInv(m, pk, ConfigureBank(m, pk, config).value.pools[pk]);
  }

  // ---------------------------------------------------- banks and accounts

  lemma {:induction false} NobodyHolds(accounts: seq<Account>, keys: set<nat>, pk: nat, q: Quantity)
    requires pk !in keys && forall a :: 0 <= a < |accounts| ==> AccountOk(accounts[a], keys)
    ensures SumAccounts(accounts, pk, q) == 0
  {
    if accounts != [] {
      NoneHeld(accounts[0].balances, keys, pk, q);
      NobodyHolds(accounts[1..], keys, pk, q);
    }
  }

  lemma {:induction false} NoneHeld(bs: seq<BalanceState>, keys: set<nat>, pk: nat, q: Quantity)
    requires pk !in keys && forall i :: 0 <= i < |bs| ==> SlotOk(bs[i], keys)
    ensures SumBalances(bs, pk, q) == 0
  {
    if bs != [] {
      NoneHeld(bs[1..], keys, pk, q);
    }
  }

  lemma AddBankKeepsInv(m: Market, pk: nat, config: BankConfig, decimals: nat, now: nat)
    requires Inv(m) && AddBank(m, pk, config, decimals, now).Ok?
    ensures var m' := AddBank(m, pk, config, decimals, now).value;
            && Inv(m') && m'.pools.Keys == m.pools.Keys + {pk} && pk !in m.pools && Net(m'.pools[pk]) == 0
            && (forall k :: k in m.pools ==> m'.pools[k] == m.pools[k])
  {
    var m' := AddBank(m, pk, config, decimals, now).value;
    forall a | 0 <= a < |m'.accounts|
      ensures AccountOk(m'.accounts[a], m'.pools.Keys)
    {
      assert AccountOk(m.accounts[a], m.pools.Keys);
    }
    forall k | k in m'.pools
      ensures PoolOk(m'.pools[k]) && Agrees(m', k)
    {
      if k == pk {
        forall q | q in QUANTITIES
          ensures Booked(m'.pools[k], q) == SumAccounts(m'.accounts, k, q)
        {
          NobodyHolds(m.accounts, m.pools.Keys, pk, q);
        }
      } else {
        assert PoolOk(m.pools[k]) && Agrees(m, k);
      }
    }
  }

  lemma {:induction false} EmptyBalancesAre(n: nat)
    ensures |EmptyBalances(n)| == n
    ensures forall i :: 0 <= i < n ==> EmptyBalances(n)[i] == EMPTY_BALANCE
  {
    if n != 0 {
      EmptyBalancesAre(n - 1);
    }
  }

  lemma {:induction false} SumAccountsAppend(accounts: seq<Account>, acct: Account, pk: nat, q: Quantity)
    ensures SumAccounts(accounts + [acct], pk, q) == SumAccounts(accounts, pk, q) + SumBalances(acct.balances, pk, q)
  {
    if accounts == [] {
      assert accounts + [acct] == [acct];
    } else {
      assert (accounts + [acct])[1..] == accounts[1..] + [acct];
      SumAccountsAppend(accounts[1..], acct, pk, q);
    }
  }

  lemma {:induction false} EmptyHoldsNothing(bs: seq<BalanceState>, pk: nat, q: Quantity)
    requires forall i :: 0 <= i < |bs| ==> bs[i] == EMPTY_BALANCE
    ensures SumBalances(bs, pk, q) == 0
  {
    if bs != [] {
      EmptyHoldsNothing(bs[1..], pk, q);
    }
  }

  lemma CreateAccountKeepsInv(m: Market)
    requires Inv(m)
    ensures Inv(CreateAccount(m).value)
  {
    var m' := CreateAccount(m).value;
    var bs := EmptyBalances(MAX_LENDING_ACCOUNT_BALANCES);
    EmptyBalancesAre(MAX_LENDING_ACCOUNT_BALANCES);
    forall a | 0 <= a < |m'.accounts|
      ensures AccountOk(m'.accounts[a], m'.pools.Keys)
    {
      if a < |m.accounts| {
        assert AccountOk(m.accounts[a], m.pools.Keys);
      }
    }
    forall k | k in m'.pools
      ensures PoolOk(m'.pools[k]) && Agrees(m', k)
    {
      assert PoolOk(m.pools[k]) && Agrees(m, k);
      forall q | q in QUANTITIES
        ensures Booked(m'.pools[k], q) == SumAccounts(m'.accounts, k, q)
      {
        SumAccountsAppend(m.accounts, m'.accounts[|m.accounts|], k, q);
        EmptyHoldsNothing(bs, k, q);
      }
    }
  }

  /** Account flags do not matter to the books. */
  lemma FlagsKeepInv(m: Market, a: nat, acct: Account)
    requires Inv(m) && a < |m.accounts| && acct.balances == m.accounts[a].balances
    ensures Inv(m.(accounts := m.accounts[a := acct]))
  {
    var m' := m.(accounts := m.accounts[a := acct]);
    forall c | 0 <= c < |m'.accounts|
      ensures AccountOk(m'.accounts[c], m'.pools.Keys)
    {
      assert AccountOk(m.accounts[c], m.pools.Keys);
    }
    forall k | k in m'.pools
      ensures PoolOk(m'.pools[k]) && Agrees(m', k)
    {
      assert PoolOk(m.pools[k]) && Agrees(m, k);
      forall q | q in QUANTITIES
        ensures Booked(m'.pools[k], q) == SumAccounts(m'.accounts, k, q)
      {
        SumAccountsUpdate(m.accounts, a, acct, k, q);
      }
    }
  }

  // ---------------------------------------------------------------- bad debt

  /** A payment in is refused by a bank whose deposits are worth nothing. */
  lemma PayInNeedsValue(m: Market, a: nat, pk: nat, delta: int, kind: IncreaseType, create: bool, now: nat)
    requires PayIn(m, a, pk, delta, kind, create, now).Ok?
    ensures pk in m.pools && m.pools[pk].bank.assetShareValue != 0
  {
    var (i, p) := PositionAt(m, a, pk, create, now).value;
    var c := p.ClaimEmissions(now).value;
    assert c.bank.assetShareValue == p.bank.assetShareValue;
    assert c.Raise(delta, kind).Ok?;
  }

  /** Socializing a loss that deposits can bear, if anything is left of them. */
  lemma SocializeAtEffect(m: Market, pk: nat, loss: int)
    requires Inv(m) && SocializeAt(m, pk, loss).Ok? && pk in m.pools
    requires var b := m.pools[pk].bank; 0 <= loss <= Product(b.totalAssetShares, b.assetShareValue)
    requires SocializeAt(m, pk, loss).value.pools[pk].bank.assetShareValue != 0
    ensures var m', b := SocializeAt(m, pk, loss).value, m.pools[pk].bank;
            && Inv(m') && Within(m, m', pk, loss * ONE, loss * ONE + b.totalAssetShares + ONE - 1)
            && (forall k :: k in m.pools && k != pk ==> m'.pools[k] == m.pools[k])
            && m'.pools[pk] == m.pools[pk].(bank := b.(assetShareValue := m'.pools[pk].bank.assetShareValue))
            && m'.pools[pk].bank.assetShareValue <= b.assetShareValue
            && m'.accounts == m.accounts
  {
    var pool := m.pools[pk];
    assert PoolOk(pool);
    SocializedLossBounds(pool.bank, loss);
    PutPoolKeepsInv(m, pk, pool.(bank := pool.bank.SocializeLoss(loss).value));
  }

  /** The loss a bankruptcy leaves to depositors. */
  function LossOf(debt: int, insurance: nat, fee: TransferFee): int {
    Max(debt - Covered(debt, insurance, fee), 0)
  }

  /** Deposits are worth at least the loss. */
  predicate Bears(b: BankState, debt: int, insurance: nat, fee: TransferFee) {
    LossOf(debt, insurance, fee) <= Product(b.totalAssetShares, b.assetShareValue)
  }

  /** If account `a` is settled as bankrupt now, deposits in bank `pk` bear the loss. */
  predicate DepositsCover(m: Market, a: nat, pk: nat, insurance: nat, fee: TransferFee, now: nat) {
    var m1 := AccrueAt(m, pk, now);
    m1.Ok? && pk in m1.value.pools && BadDebt(m1.value, a, pk).Ok? ==>
      Bears(m1.value.pools[pk].bank, BadDebt(m1.value, a, pk).value, insurance, fee)
  }

  lemma CoveredBounds(debt: int, insurance: nat, fee: TransferFee)
    requires 0 <= debt && FeeOk(fee)
    ensures 0 <= Covered(debt, insurance, fee) <= debt
  {
    hide Received;
    ReceivedBounds(fee, insurance);
  }

  lemma BadDebtBounds(m: Market, a: nat, pk: nat)
    requires Inv(m) && pk in m.pools && BadDebt(m, a, pk).Ok?
    ensures var b := m.pools[pk].bank;
            0 <= BadDebt(m, a, pk).value <= Product(b.totalLiabilityShares, b.liabilityShareValue)
  {
    var b := m.pools[pk].bank;
    assert PoolOk(m.pools[pk]);
    var i := FindBalance(m.accounts[a].balances, pk).value;
    HoldingIsBooked(m, pk, a, i, LiabilityQ);
    ProductMonotone(m.accounts[a].balances[i].liabilityShares, b.totalLiabilityShares, b.liabilityShareValue);
  }

  /** A bank whose debts are within its deposits once interest is charged bears the bad debt
      of any account. */
  lemma SolventBankCovers(m: Market, a: nat, pk: nat, insurance: nat, fee: TransferFee, now: nat)
    requires Inv(m) && FeeOk(fee) && pk in m.pools && AccruedBank(m, pk, now).CheckUtilizationRatio().Ok?
    ensures DepositsCover(m, a, pk, insurance, fee, now)
  {
    hide Inv, BadDebt, Covered, BankState.AccrueInterest;
    var r := AccrueAt(m, pk, now);
    if r.Ok? && BadDebt(r.value, a, pk).Ok? {
      AccrueAtEffect(m, pk, now);
      BadDebtBounds(r.value, a, pk);
      CoveredBounds(BadDebt(r.value, a, pk).value, insurance, fee);
    }
  }

  /** Nothing was dropped or forfeited. */
  predicate SameDrops(p: Pool, p': Pool) {
    p'.droppedAssets == p.droppedAssets && p'.droppedLiabilities == p.droppedLiabilities
    && p'.emissionsForfeited == p.emissionsForfeited
  }

  /** A change to bank `pk` alone that closes no balance. */
  predicate Confined(m: Market, m': Market, pk: nat) {
    && pk in m.pools && m'.pools.Keys == m.pools.Keys && SameDrops(m.pools[pk], m'.pools[pk])
    && (forall k :: k in m.pools && k != pk ==> m'.pools[k] == m.pools[k])
  }

  /** The three changes that write off a debt. */
  lemma DebtWrittenOff(m: Market, m1: Market, m2: Market, m3: Market, pk: nat,
                       debt: int, covered: int, rounded: int, shares: int, u: int)
    requires Within(m, m1, pk, rounded * ONE * ONE, rounded * ONE * ONE)
    requires Within(m1, m2, pk, (debt - covered) * ONE, (debt - covered) * ONE + shares + ONE - 1)
    requires Within(m2, m3, pk, -debt * ONE, -debt * ONE + u - 1)
    requires covered <= rounded * ONE < covered + ONE
    ensures Within(m, m3, pk, 0, ONE * ONE + shares + ONE + u)
  {
    WithinThen(m1, m2, m3, pk, (debt - covered) * ONE, (debt - covered) * ONE + shares + ONE - 1,
               -debt * ONE, -debt * ONE + u - 1);
    WithinThen(m, m1, m3, pk, rounded * ONE * ONE, rounded * ONE * ONE,
               -covered * ONE, -covered * ONE + shares + ONE + u - 2);
  }

  /** Writing off a debt that deposits bear costs the bank nothing, and leaves it
      at most the token rounded up from insurance and the rounding of shares. */
  lemma WriteOffEffect(m: Market, a: nat, pk: nat, debt: int, insurance: nat, fee: TransferFee, now: nat)
    requires Inv(m) && FeeOk(fee) && pk in m.pools && 0 <= debt && Bears(m.pools[pk].bank, debt, insurance, fee)
    requires WriteOff(m, a, pk, debt, insurance, fee, now).Ok?
    ensures var m', b := WriteOff(m, a, pk, debt, insurance, fee, now).value, m.pools[pk].bank;
            && Inv(m') && Within(m, m', pk, 0, ONE * ONE + b.totalAssetShares + ONE + Ulps(b))
            && Confined(m, m', pk)
  {
    hide FillVault, SocializeAt, PayIn, Inv, Net, Covered, PreFee;
    var covered := Covered(debt, insurance, fee);
    CoveredBounds(debt, insurance, fee);
    var rounded := ToU64(Ceil(covered)).value;
    var m1 := FillVault(m, pk, fee, rounded).value;
    FillVaultEffect(m, pk, fee, rounded);
    var m2 := SocializeAt(m1, pk, debt - covered).value;
    PayInNeedsValue(m2, a, pk, debt, RepayOnly, true, now);
    SocializeAtEffect(m1, pk, debt - covered);
    PayInEffect(m2, a, pk, debt, RepayOnly, true, now);
    DebtWrittenOff(m, m1, m2, PayIn(m2, a, pk, debt, RepayOnly, true, now).value, pk,
                   debt, covered, rounded, m.pools[pk].bank.totalAssetShares, Ulps(m2.pools[pk].bank));
  }

  lemma SettleBadDebtEffect(m: Market, a: nat, pk: nat, insurance: nat, fee: TransferFee, now: nat)
    requires Inv(m) && FeeOk(fee) && SettleBadDebt(m, a, pk, insurance, fee, now).Ok?
    requires DepositsCover(m, a, pk, insurance, fee, now)
    ensures pk in m.pools
    ensures var m', b := SettleBadDebt(m, a, pk, insurance, fee, now).value, AccruedBank(m, pk, now);
            && Inv(m') && Within(m, m', pk, -CreditAt(m, pk, now),
                      DebitAt(m, pk, now) + ONE * ONE + b.totalAssetShares + ONE + Ulps(b))
            && Confined(m, m', pk)
  {
    hide WriteOff, Inv, Net;
    var m1 := AccrueAt(m, pk, now).value;
    AccrueAtEffect(m, pk, now);
    var debt := BadDebt(m1, a, pk).value;
    BadDebtBounds(m1, a, pk);
    var m2 := WriteOff(m1, a, pk, debt, insurance, fee, now).value;
    WriteOffEffect(m1, a, pk, debt, insurance, fee, now);
    var b := m1.pools[pk].bank;
    WithinThen(m, m1, m2, pk, -CreditAt(m, pk, now), DebitAt(m, pk, now),
               0, ONE * ONE + b.totalAssetShares + ONE + Ulps(b));
    DisableKeeps(m2, a);
  }

  lemma PayInKeepsValue(m: Market, a: nat, pk: nat, delta: int, kind: IncreaseType, create: bool, now: nat)
    requires PayIn(m, a, pk, delta, kind, create, now).Ok?
    ensures pk in m.pools && pk in PayIn(m, a, pk, delta, kind, create, now).value.pools
    ensures var p, p' := m.pools[pk], PayIn(m, a, pk, delta, kind, create, now).value.pools[pk];
            p'.bank.assetShareValue == p.bank.assetShareValue && p'.vault == p.vault
  {
    hide SlotFor, CheckedMul, CheckedDiv, BankState.AssertOperational, CalcEmissions;
    var (i, p) := PositionAt(m, a, pk, create, now).value;
    var c := p.ClaimEmissions(now).value;
    assert c.bank.assetShareValue == p.bank.assetShareValue;
    assert c.Raise(delta, kind).value.bank.assetShareValue == c.bank.assetShareValue;
  }

  /** What a loss takes from depositors, whether or not they bear it: the loss, up to the
      rounding of one division. */
  lemma SocializedLossIs(b: BankState, loss: int)
    requires b.Healthy() && 0 <= loss && b.SocializeLoss(loss).Ok?
    ensures 0 < b.totalAssetShares
    ensures var lost := (b.assetShareValue - b.SocializeLoss(loss).value.assetShareValue) * b.totalAssetShares;
            && loss * ONE - b.totalAssetShares < lost < loss * ONE + b.totalAssetShares + ONE
            && (loss <= Product(b.totalAssetShares, b.assetShareValue) ==> loss * ONE <= lost)
  {
    var (total, d) := (Product(b.totalAssetShares, b.assetShareValue), b.totalAssetShares);
    ProductBounds(b.totalAssetShares, b.assetShareValue);
    DivisionBounds((total - loss) * ONE, d);
    DivisionBounds((loss - total) * ONE, d);
  }

  /** Insurance pays first: the vault gains the least whole number of tokens that is not
      below the debt or all that can arrive from insurance, whichever is less,
      and insurance has them.  Depositors lose what insurance does not cover,
      nothing if it covers all, up to the rounding of one division. */
  ghost predicate PaidFirst(p: Pool, p': Pool, debt: int, insurance: nat, fee: TransferFee) {
    var arrives := Received(fee, insurance) * ONE;
    var paid := p'.vault - p.vault;
    var lost := (p.bank.assetShareValue - p'.bank.assetShareValue) * p.bank.totalAssetShares;
    && paid * ONE - ONE < Min(debt, arrives) <= paid * ONE
    && (exists sent: nat :: sent <= insurance && Received(fee, sent) == paid)
    && (debt <= arrives ==> 0 <= lost < p.bank.totalAssetShares + ONE)
    && (arrives < debt ==>
          && (debt - arrives) * ONE - p.bank.totalAssetShares < lost
          && lost < (debt - arrives) * ONE + p.bank.totalAssetShares + ONE
          && (debt - arrives <= Product(p.bank.totalAssetShares, p.bank.assetShareValue) ==>
                (debt - arrives) * ONE <= lost))
  }

  /** Writing off a debt, accepted, whether or not deposits bear what is left. */
  lemma InsurancePaysFirst(m: Market, a: nat, pk: nat, debt: int, insurance: nat, fee: TransferFee, now: nat)
    requires Inv(m) && FeeOk(fee) && 0 <= debt && WriteOff(m, a, pk, debt, insurance, fee, now).Ok?
    ensures pk in m.pools && pk in WriteOff(m, a, pk, debt, insurance, fee, now).value.pools
    ensures PaidFirst(m.pools[pk], WriteOff(m, a, pk, debt, insurance, fee, now).value.pools[pk], debt, insurance, fee)
  {
    hide WriteOff, Inv, Received, Product, Ceil, ToU64, BankState.SocializeLoss;
    ReceivedBounds(fee, insurance);
    var covered := Min(debt, Received(fee, insurance) * ONE);
    WriteOffPays(m, a, pk, debt, covered, insurance, fee, now);
    RoundedUp(covered);
    PoolIsOk(m, pk);
    ProductBounds(m.pools[pk].bank.totalAssetShares, m.pools[pk].bank.assetShareValue);
    SocializedLossIs(m.pools[pk].bank, debt - covered);
  }

  lemma WriteOffPays(m: Market, a: nat, pk: nat, debt: int, covered: int, insurance: nat, fee: TransferFee, now: nat)
    requires FeeOk(fee) && 0 <= debt && WriteOff(m, a, pk, debt, insurance, fee, now).Ok?
    requires covered == Min(debt, Received(fee, insurance) * ONE)
    ensures pk in m.pools && pk in WriteOff(m, a, pk, debt, insurance, fee, now).value.pools
    ensures ToU64(Ceil(covered)).Ok? && m.pools[pk].bank.SocializeLoss(debt - covered).Ok?
    ensures var p, p' := m.pools[pk], WriteOff(m, a, pk, debt, insurance, fee, now).value.pools[pk];
            && p'.vault == p.vault + ToU64(Ceil(covered)).value
            && p'.bank.assetShareValue == p.bank.SocializeLoss(debt - covered).value.assetShareValue
            && exists sent: nat :: sent <= insurance && Received(fee, sent) == p'.vault - p.vault
  {
    hide PayIn, FillVault, SocializeAt, Received, Ceil, PreFee, BankState.SocializeLoss;
    var rounded := ToU64(Ceil(covered)).value;
    Arrives(m, pk, fee, rounded);
    var m1 := FillVault(m, pk, fee, rounded).value;
    var m2 := SocializeAt(m1, pk, debt - covered).value;
    Socialized(m1, pk, debt - covered);
    PayInKeepsValue(m2, a, pk, debt, RepayOnly, true, now);
    assert PreFee(fee, rounded).value <= insurance;
  }

  lemma RoundedUp(x: int)
    requires 0 <= x && ToU64(Ceil(x)).Ok?
    ensures ToU64(Ceil(x)).value * ONE - ONE < x <= ToU64(Ceil(x)).value * ONE && ToU64(Ceil(x)).value <= U64_MAX
  {
  }

  lemma Arrives(m: Market, pk: nat, fee: TransferFee, amount: nat)
    requires FeeOk(fee) && amount <= U64_MAX && FillVault(m, pk, fee, amount).Ok?
    ensures pk in m.pools && PreFee(fee, amount).Ok? && Received(fee, PreFee(fee, amount).value) == amount
    ensures FillVault(m, pk, fee, amount).value
            == m.PutPool(pk, m.pools[pk].(vault := m.pools[pk].vault + amount))
  {
    PreFeeIsLeast(fee, amount);
  }

  lemma Socialized(m: Market, pk: nat, loss: int)
    requires SocializeAt(m, pk, loss).Ok?
    ensures pk in m.pools && m.pools[pk].bank.SocializeLoss(loss).Ok?
    ensures SocializeAt(m, pk, loss).value
            == m.PutPool(pk, m.pools[pk].(bank := m.pools[pk].bank.SocializeLoss(loss).value))
  {
  }

  /** A loss that deposits do not bear, if it is accepted, turns their value negative. */
  lemma WriteOffBeyond(m: Market, a: nat, pk: nat, debt: int, insurance: nat, fee: TransferFee, now: nat)
    requires Inv(m) && pk in m.pools && !Bears(m.pools[pk].bank, debt, insurance, fee)
    requires WriteOff(m, a, pk, debt, insurance, fee, now).Ok?
    ensures var m' := WriteOff(m, a, pk, debt, insurance, fee, now).value;
            pk in m'.pools && m'.pools[pk].bank.assetShareValue < 0
  {
    hide PayIn, Inv, Covered, PreFee, Received, Ceil, Product, Truncated;
    PoolIsOk(m, pk);
    var loss := LossOf(debt, insurance, fee);
    var m1 := FillVault(m, pk, fee, ToU64(Ceil(Covered(debt, insurance, fee))).value).value;
    var m2 := SocializeAt(m1, pk, loss).value;
    PayInNeedsValue(m2, a, pk, debt, RepayOnly, true, now);
    PayInKeepsValue(m2, a, pk, debt, RepayOnly, true, now);
    SocializedLossSign(m.pools[pk].bank, loss);
  }

  /** An accepted settlement of bad debt keeps the books in order if and only if
      deposits bear the loss; otherwise it turns their value negative. */
  lemma BankruptcyKeepsBooksIff(m: Market, a: nat, pk: nat, insurance: nat, fee: TransferFee, now: nat)
    requires Inv(m) && FeeOk(fee) && SettleBadDebt(m, a, pk, insurance, fee, now).Ok?
    ensures var m' := SettleBadDebt(m, a, pk, insurance, fee, now).value;
            && pk in m'.pools
            && (Inv(m') <==> DepositsCover(m, a, pk, insurance, fee, now))
            && (DepositsCover(m, a, pk, insurance, fee, now) <==> 0 < m'.pools[pk].bank.assetShareValue)
  {
    hide WriteOff, Inv, Bears, BadDebt;
    var m' := SettleBadDebt(m, a, pk, insurance, fee, now).value;
    var m1 := AccrueAt(m, pk, now).value;
    AccrueAtEffect(m, pk, now);
    if DepositsCover(m, a, pk, insurance, fee, now) {
      SettleBadDebtEffect(m, a, pk, insurance, fee, now);
      PoolIsOk(m', pk);
    } else {
      WriteOffBeyond(m1, a, pk, BadDebt(m1, a, pk).value, insurance, fee, now);
      if Inv(m') {
        PoolIsOk(m', pk);
      }
    }
  }

  lemma DisableKeeps(m: Market, a: nat)
    requires Inv(m)
    ensures Inv(Disable(m, a)) && Disable(m, a).pools == m.pools && Disable(m, a).fees == m.fees
    ensures |Disable(m, a).accounts| == |m.accounts|
  {
    if a < |m.accounts| {
      FlagsKeepInv(m, a, m.accounts[a].(disabled := true));
    }
  }

  // ------------------------------------------------------------- liquidation

  lemma QuoteMonotone(amount: nat, assetBank: BankState, assetPrice: int, liabilityBank: BankState,
                      liabilityPrice: int, d1: int, d2: int)
    requires 0 <= assetPrice && 0 <= liabilityPrice && 0 <= d1 <= d2
    requires LiquidationQuote(amount, assetBank, assetPrice, liabilityBank, liabilityPrice, d1).Ok?
    requires LiquidationQuote(amount, assetBank, assetPrice, liabilityBank, liabilityPrice, d2).Ok?
    ensures 0 <= LiquidationQuote(amount, assetBank, assetPrice, liabilityBank, liabilityPrice, d1).value
              <= LiquidationQuote(amount, assetBank, assetPrice, liabilityBank, liabilityPrice, d2).value
  {
    ValueMonotone(amount * ONE, assetPrice, assetPrice, assetBank.mintDecimals, d1, d2);
    AmountMonotone(CalcValue(amount * ONE, assetPrice, assetBank.mintDecimals, Some(d1)).value,
                   CalcValue(amount * ONE, assetPrice, assetBank.mintDecimals, Some(d2)).value,
                   liabilityPrice, liabilityBank.mintDecimals);
  }

  /** Whenever both debts can be quoted the liquidation has its amounts: the assertion
      that the insurance fee is not negative cannot fire. */
  lemma InsuranceFeeAssertionHolds(m: Market, assetPk: nat, liabilityPk: nat, amount: nat, feeds: map<nat, Feed>)
    requires assetPk in m.pools && liabilityPk in m.pools
    requires FeedPrice(feeds, assetPk, Low).Ok? && FeedPrice(feeds, liabilityPk, High).Ok?
    requires var a, b := m.pools[assetPk].bank, m.pools[liabilityPk].bank;
             var p, q := FeedPrice(feeds, assetPk, Low).value, FeedPrice(feeds, liabilityPk, High).value;
             && LiquidationQuote(amount, a, p, b, q, ONE - LIQUIDATION_LIQUIDATOR_FEE).Ok?
             && LiquidationQuote(amount, a, p, b, q, ONE - (LIQUIDATION_INSURANCE_FEE + LIQUIDATION_LIQUIDATOR_FEE)).Ok?
    ensures LiquidationAmounts(m, assetPk, liabilityPk, amount, feeds).Ok?
    ensures var (paid, received) := LiquidationAmounts(m, assetPk, liabilityPk, amount, feeds).value;
            0 <= received <= paid
  {
    hide LiquidationQuote, PriceOfType;
    BiasedPriceNonNegative(feeds[assetPk], RealTime, Low);
    BiasedPriceNonNegative(feeds[liabilityPk], RealTime, High);
    QuoteMonotone(amount, m.pools[assetPk].bank, FeedPrice(feeds, assetPk, Low).value,
                  m.pools[liabilityPk].bank, FeedPrice(feeds, liabilityPk, High).value,
                  ONE - (LIQUIDATION_INSURANCE_FEE + LIQUIDATION_LIQUIDATOR_FEE), ONE - LIQUIDATION_LIQUIDATOR_FEE);
  }

  lemma LiquidationAmountsOrdered(m: Market, assetPk: nat, liabilityPk: nat, amount: nat, feeds: map<nat, Feed>)
    requires LiquidationAmounts(m, assetPk, liabilityPk, amount, feeds).Ok?
    ensures assetPk in m.pools && liabilityPk in m.pools
    ensures var (paid, received) := LiquidationAmounts(m, assetPk, liabilityPk, amount, feeds).value;
            0 <= received <= paid
  {
    hide LiquidationQuote, FeedPrice;
    InsuranceFeeAssertionHolds(m, assetPk, liabilityPk, amount, feeds);
  }

  /** A quote is worth `discount` of the collateral, rounded down: at most that, and
      less by no more than one ulp of liability, of collateral value and of price. */
  lemma QuoteIs(amount: nat, assetBank: BankState, assetPrice: int, liabilityBank: BankState, liabilityPrice: int,
                discount: int)
    requires 0 <= assetPrice && 0 < liabilityPrice && 0 <= discount
    requires LiquidationQuote(amount, assetBank, assetPrice, liabilityBank, liabilityPrice, discount).Ok?
    ensures var q := LiquidationQuote(amount, assetBank, assetPrice, liabilityBank, liabilityPrice, discount).value;
            var assetScale, liabilityScale := Pow10(assetBank.mintDecimals), Pow10(liabilityBank.mintDecimals);
            var worth := amount * ONE * discount * assetPrice * liabilityScale;
            && q * liabilityPrice * assetScale * ONE <= worth
            && worth < ((q + 1) * liabilityPrice + liabilityScale * ONE) * assetScale * ONE
                       + (assetPrice * ONE + 1) * liabilityScale
  {
    hide CalcValue, CalcAmount, Pow10;
    var value := CalcValue(amount * ONE, assetPrice, assetBank.mintDecimals, Some(discount)).value;
    ValueBounds(amount * ONE, assetPrice, assetBank.mintDecimals, discount);
    AmountBounds(value, liabilityPrice, liabilityBank.mintDecimals);
    QuoteChain(amount * ONE * discount * assetPrice, Pow10(assetBank.mintDecimals), Pow10(liabilityBank.mintDecimals),
               assetPrice, liabilityPrice, value, CalcAmount(value, liabilityPrice, liabilityBank.mintDecimals).value);
  }

  lemma QuoteChain(exact: int, s: int, t: int, assetPrice: int, price: int, v: int, q: int)
    requires 0 < s && 0 < t && v * s * ONE * ONE <= exact < (v + 1) * s * ONE * ONE + assetPrice * ONE + 1
    requires q * price <= v * t * ONE < q * price + price
    ensures q * price * s * ONE <= exact * t
    ensures exact * t < ((q + 1) * price + t * ONE) * s * ONE + (assetPrice * ONE + 1) * t
  {
    Scale(v * s * ONE * ONE, exact, t);
    Scale(q * price, v * t * ONE, s);
    assert v * s * ONE * ONE * t == v * t * ONE * s * ONE;
    Scale(exact + 1, (v + 1) * s * ONE * ONE + assetPrice * ONE + 1, t);
    assert ((v + 1) * s * ONE * ONE + (assetPrice * ONE + 1)) * t
        == (v + 1) * t * ONE * s * ONE + (assetPrice * ONE + 1) * t;
    assert (v + 1) * t * ONE == v * t * ONE + t * ONE;
    assert (q + 1) * price == q * price + price;
    Scale((v + 1) * t * ONE, (q + 1) * price + t * ONE, s);
  }

  /** The liquidator takes over debt worth 97.5% of the collateral, and the account
      liquidated is relieved of 95% of it, both rounded down; 7_036_874_417_766 is
      2.5% in fixed point. */
  lemma LiquidationDiscounts(m: Market, assetPk: nat, liabilityPk: nat, amount: nat, feeds: map<nat, Feed>)
    requires LiquidationAmounts(m, assetPk, liabilityPk, amount, feeds).Ok?
    ensures assetPk in m.pools && liabilityPk in m.pools
    ensures FeedPrice(feeds, assetPk, Low).Ok? && FeedPrice(feeds, liabilityPk, High).Ok?
    ensures var (paid, received) := LiquidationAmounts(m, assetPk, liabilityPk, amount, feeds).value;
            var assetScale, liabilityScale := Pow10(m.pools[assetPk].bank.mintDecimals),
                                              Pow10(m.pools[liabilityPk].bank.mintDecimals);
            var worth := amount * ONE * FeedPrice(feeds, assetPk, Low).value * liabilityScale;
            var price := FeedPrice(feeds, liabilityPk, High).value;
            var rounding := (price + liabilityScale * ONE) * assetScale * ONE
                            + (FeedPrice(feeds, assetPk, Low).value * ONE + 1) * liabilityScale;
            var taken, relieved := paid * price * assetScale * ONE, received * price * assetScale * ONE;
            && taken <= (ONE - 7_036_874_417_766) * worth < taken + rounding
            && relieved <= (ONE - 2 * 7_036_874_417_766) * worth < relieved + rounding
  {
    hide LiquidationQuote, FeedPrice, Pow10;
    var a, b := m.pools[assetPk].bank, m.pools[liabilityPk].bank;
    var p, q := FeedPrice(feeds, assetPk, Low).value, FeedPrice(feeds, liabilityPk, High).value;
    QuotePrices(m, assetPk, liabilityPk, amount, feeds);
    QuoteIs(amount, a, p, b, q, ONE - LIQUIDATION_LIQUIDATOR_FEE);
    QuoteIs(amount, a, p, b, q, ONE - (LIQUIDATION_INSURANCE_FEE + LIQUIDATION_LIQUIDATOR_FEE));
    Reorder(amount * ONE, ONE - LIQUIDATION_LIQUIDATOR_FEE, p, Pow10(b.mintDecimals));
    Reorder(amount * ONE, ONE - (LIQUIDATION_INSURANCE_FEE + LIQUIDATION_LIQUIDATOR_FEE), p, Pow10(b.mintDecimals));
    var (paid, received) := LiquidationAmounts(m, assetPk, liabilityPk, amount, feeds).value;
    OneMore(paid, q, Pow10(a.mintDecimals), Pow10(b.mintDecimals));
    OneMore(received, q, Pow10(a.mintDecimals), Pow10(b.mintDecimals));
  }

  lemma OneMore(x: int, price: int, s: int, t: int)
    ensures ((x + 1) * price + t * ONE) * s * ONE == x * price * s * ONE + (price + t * ONE) * s * ONE
  {
    assert (x + 1) * price + t * ONE == x * price + (price + t * ONE);
  }

  lemma Reorder(x: int, y: int, z: int, w: int)
    ensures x * y * z * w == y * (x * z * w)
  {
  }

  lemma QuotePrices(m: Market, assetPk: nat, liabilityPk: nat, amount: nat, feeds: map<nat, Feed>)
    requires LiquidationAmounts(m, assetPk, liabilityPk, amount, feeds).Ok?
    ensures FeedPrice(feeds, assetPk, Low).Ok? && FeedPrice(feeds, liabilityPk, High).Ok?
    ensures 0 <= FeedPrice(feeds, assetPk, Low).value && 0 < FeedPrice(feeds, liabilityPk, High).value
  {
    hide PriceOfType, CalcValue, CheckedMul;
    BiasedPriceNonNegative(feeds[assetPk], RealTime, Low);
    BiasedPriceNonNegative(feeds[liabilityPk], RealTime, High);
  }

  lemma BookInsuranceFeeEffect(m: Market, pk: nat, fee: int)
    requires Inv(m) && 0 <= fee && BookInsuranceFee(m, pk, fee).Ok?
    ensures pk in m.pools && Inv(BookInsuranceFee(m, pk, fee).value)
    ensures Evolves(m, BookInsuranceFee(m, pk, fee).value, pk, -fee * ONE, -fee * ONE)
  {
    hide DrainVault, Inv, Net;
    var tokens := ToU64(fee).value;
    var m1 := DrainVault(m, pk, tokens).value;
    DrainVaultEffect(m, pk, tokens);
    PoolIsOk(m1, pk);
    var bank := m1.pools[pk].bank;
    var bank' := bank.(insuranceFees := bank.insuranceFees + (fee - Floor(fee)));
    PutBank(m1, pk, bank');
    var rest := (fee - Floor(fee)) * ONE;
    EvolvesThen(m, m1, BookInsuranceFee(m, pk, fee).value, pk, -(tokens * ONE * ONE), -(tokens * ONE * ONE),
                -rest, -rest);
  }

  /** As `Evolves`, without saying what happens elsewhere. */
  predicate Drifts(m: Market, m': Market, k: nat, low: int, high: int) {
    && Within(m, m', k, low, high)
    && m.pools[k].bank.assetShareValue <= m'.pools[k].bank.assetShareValue
    && SameDrops(m.pools[k], m'.pools[k])
  }

  lemma DriftsThen(m: Market, m1: Market, m2: Market, k: nat, l1: int, h1: int, l2: int, h2: int)
    requires Drifts(m, m1, k, l1, h1) && Drifts(m1, m2, k, l2, h2)
    ensures Drifts(m, m2, k, l1 + l2, h1 + h2)
  {
  }

  /** The asset bank's part of a liquidation: collateral changes hands. */
  lemma SwapOfAssets(m: Market, m1: Market, m2: Market, m3: Market, m4: Market, m5: Market,
                     assetPk: nat, liabilityPk: nat, u: int, value: int,
                     l1: int, h1: int, l4: int, h4: int, l5: int, h5: int)
    requires assetPk != liabilityPk && assetPk in m.pools
    requires Evolves(m, m1, liabilityPk, l1, h1)
    requires Evolves(m1, m2, assetPk, value - u + 1, value)
    requires Evolves(m2, m3, assetPk, -value, -value + u - 1)
    requires Evolves(m3, m4, liabilityPk, l4, h4)
    requires Evolves(m4, m5, liabilityPk, l5, h5)
    ensures Drifts(m, m5, assetPk, -u + 1, u - 1)
  {
    EvolvesThen(m1, m2, m3, assetPk, value - u + 1, value, -value, -value + u - 1);
    EvolvesThen(m3, m4, m5, liabilityPk, l4, h4, l5, h5);
    DriftsThen(m, m1, m3, assetPk, 0, 0, -u + 1, u - 1);
    DriftsThen(m, m3, m5, assetPk, -u + 1, u - 1, 0, 0);
  }

  /** The liability bank's part: debt changes hands, and the difference is the fee. */
  lemma SwapOfLiabilities(m: Market, m1: Market, m3: Market, m4: Market, m5: Market,
                          liabilityPk: nat, u: int, paid: int, received: int)
    requires Evolves(m, m1, liabilityPk, paid - u + 1, paid)
    requires Drifts(m1, m3, liabilityPk, 0, 0)
    requires Evolves(m3, m4, liabilityPk, -received, -received + u - 1)
    requires Evolves(m4, m5, liabilityPk, received - paid, received - paid)
    ensures Drifts(m, m5, liabilityPk, -u + 1, u - 1)
  {
    DriftsThen(m, m1, m3, liabilityPk, paid - u + 1, paid, 0, 0);
    EvolvesThen(m3, m4, m5, liabilityPk, -received, -received + u - 1, received - paid, received - paid);
    DriftsThen(m, m3, m5, liabilityPk, paid - u + 1, paid, -paid, -paid + u - 1);
  }

  /** A liquidation leaves each of its two banks where it was, up to rounding. */
  lemma SwapPositionsEffect(m: Market, liquidator: nat, liquidatee: nat, assetPk: nat, liabilityPk: nat, amount: nat,
                            paid: int, received: int, now: nat)
    requires Inv(m) && 0 <= received <= paid && assetPk != liabilityPk
    requires assetPk in m.pools && liabilityPk in m.pools
    requires SwapPositions(m, liquidator, liquidatee, assetPk, liabilityPk, amount, paid, received, now).Ok?
    ensures var m' := SwapPositions(m, liquidator, liquidatee, assetPk, liabilityPk, amount, paid, received, now).value;
            && Inv(m') && Drifts(m, m', assetPk, -Ulps(m.pools[assetPk].bank) + 1, Ulps(m.pools[assetPk].bank) - 1)
            && Drifts(m, m', liabilityPk, -Ulps(m.pools[liabilityPk].bank) + 1, Ulps(m.pools[liabilityPk].bank) - 1)
            && (forall k :: k in m.pools && k != assetPk && k != liabilityPk ==> m'.pools[k] == m.pools[k])
  {
    hide PayOut, PayIn, BookInsuranceFee, Inv, Net;
    var value := amount * ONE * ONE;
    var ua, ul := Ulps(m.pools[assetPk].bank), Ulps(m.pools[liabilityPk].bank);
    var m1 := PayOut(m, liquidator, liabilityPk, paid, BypassBorrowLimit, true, now).value;
    PayOutEffect(m, liquidator, liabilityPk, paid, BypassBorrowLimit, true, now);
    var m2 := PayOut(m1, liquidatee, assetPk, amount * ONE, WithdrawOnly, false, now).value;
    PayOutEffect(m1, liquidatee, assetPk, amount * ONE, WithdrawOnly, false, now);
    var m3 := PayIn(m2, liquidator, assetPk, amount * ONE, BypassDepositLimit, true, now).value;
    PayInEffect(m2, liquidator, assetPk, amount * ONE, BypassDepositLimit, true, now);
    var m4 := PayIn(m3, liquidatee, liabilityPk, received, AnyIncrease, true, now).value;
    PayInEffect(m3, liquidatee, liabilityPk, received, AnyIncrease, true, now);
    var m5 := BookInsuranceFee(m4, liabilityPk, paid - received).value;
    BookInsuranceFeeEffect(m4, liabilityPk, paid - received);
    SwapOfAssets(m, m1, m2, m3, m4, m5, assetPk, liabilityPk, ua, value,
                 paid * ONE - ul + 1, paid * ONE, -received * ONE, -received * ONE + ul - 1,
                 -(paid - received) * ONE, -(paid - received) * ONE);
    EvolvesThen(m1, m2, m3, assetPk, value - ua + 1, value, -value, -value + ua - 1);
    SwapOfLiabilities(m, m1, m3, m4, m5, liabilityPk, ul, paid * ONE, received * ONE);
  }
}
