/** What each user has in each bank: an instruction moves the claim of the one it is for by
    the tokens it transfers, within the limits of the bank, and no other claim. */
module Claims {
  import opened Results
  import opened FixedPoint
  import opened Valuation
  import opened Banks
  import opened Positions
  import opened TransferFees
  import opened Prices
  import opened Risk
  import opened Ledger
  import opened Instructions
  import opened Effects
  import opened Conservation
  import opened Emissions

  /** The shares of bank `pk` that account `a` holds. */
  function Held(m: Market, a: nat, pk: nat, q: Quantity): int
    requires a < |m.accounts|
  {
    SumBalances(m.accounts[a].balances, pk, q)
  }

  /** Its deposits in bank `pk` less its debts, exact, in units of 2^-96. */
  function ClaimOn(m: Market, a: nat, pk: nat): int
    requires a < |m.accounts| && pk in m.pools
  {
    Held(m, a, pk, AssetQ) * m.pools[pk].bank.assetShareValue
    - Held(m, a, pk, LiabilityQ) * m.pools[pk].bank.liabilityShareValue
  }

  /** `m'` differs from `m` at most in bank `pk`, on the same terms, and in what account `a`
      holds of it. */
  ghost predicate OnlyFor(m: Market, m': Market, a: nat, pk: nat) {
    && pk in m.pools && m'.pools.Keys == m.pools.Keys && SameTerms(m.pools[pk].bank, m'.pools[pk].bank)
    && (forall k :: k in m.pools && k != pk ==> m'.pools[k] == m.pools[k])
    && m'.fees == m.fees && a < |m.accounts| == |m'.accounts|
    && (forall c :: 0 <= c < |m.accounts| && c != a ==> m'.accounts[c] == m.accounts[c])
    && m'.accounts[a] == m.accounts[a].(balances := m'.accounts[a].balances)
    && (forall k, q :: k != pk ==> Held(m', a, k, q) == Held(m, a, k, q))
  }

  /** The claim of `a` on bank `pk` moves by between `low` and `high`, and nothing else but
      the bank's own books. */
  ghost predicate Shifts(m: Market, m': Market, a: nat, pk: nat, low: int, high: int) {
    OnlyFor(m, m', a, pk) && low <= ClaimOn(m', a, pk) - ClaimOn(m, a, pk) <= high
  }

  /** Fees and vault of bank `pk` are the same. */
  predicate SameCash(m: Market, m': Market, pk: nat) {
    && pk in m.pools && pk in m'.pools
    && var (p, p') := (m.pools[pk], m'.pools[pk]);
    && p'.vault == p.vault && p'.bank.insuranceFees == p.bank.insuranceFees
    && p'.bank.groupFees == p.bank.groupFees && p'.bank.programFees == p.bank.programFees
  }

  // --------------------------------------------------------- building blocks

  /** Replacing a pool and a balance. */
  lemma PutIsFor(m: Market, pk: nat, pool: Pool, a: nat, i: nat, b: BalanceState)
    requires pk in m.pools && SlotFits(m, pk, a, i) && BalanceFits(b, pk) && SameTerms(m.pools[pk].bank, pool.bank)
    requires !m.accounts[a].balances[i].active ==> Idle(m.accounts[a].balances[i])
    ensures OnlyFor(m, m.Put(pk, pool, a, i, b), a, pk)
    ensures forall q :: Held(m.Put(pk, pool, a, i, b), a, pk, q)
                        == Held(m, a, pk, q) - Holding(m.accounts[a].balances[i], pk, q) + Holding(b, pk, q)
  {
    var m' := m.Put(pk, pool, a, i, b);
    forall k, q
      ensures Held(m', a, k, q)
              == Held(m, a, k, q) - Holding(m.accounts[a].balances[i], k, q) + Holding(b, k, q)
    {
      SumBalancesUpdate(m.accounts[a].balances, i, b, k, q);
    }
  }

  predicate Idle(b: BalanceState) {
    b.assetShares == 0 && b.liabilityShares == 0 && b.emissionsOutstanding == 0
  }

  lemma SlotIdle(m: Market, a: nat, i: nat)
    requires Inv(m) && a < |m.accounts| && i < |m.accounts[a].balances| && !m.accounts[a].balances[i].active
    ensures Idle(m.accounts[a].balances[i])
  {
    assert AccountOk(m.accounts[a], m.pools.Keys);
  }

  /** The claim after `assets` and `liabilities` shares are added. */
  lemma ClaimMoved(m: Market, m': Market, a: nat, pk: nat, assets: int, liabilities: int)
    requires OnlyFor(m, m', a, pk)
    requires Held(m', a, pk, AssetQ) == Held(m, a, pk, AssetQ) + assets
    requires Held(m', a, pk, LiabilityQ) == Held(m, a, pk, LiabilityQ) + liabilities
    ensures var b := m.pools[pk].bank;
            ClaimOn(m', a, pk) - ClaimOn(m, a, pk) == assets * b.assetShareValue - liabilities * b.liabilityShareValue
  {
    hide Held;
    var b := m.pools[pk].bank;
    assert (Held(m, a, pk, AssetQ) + assets) * b.assetShareValue
        == Held(m, a, pk, AssetQ) * b.assetShareValue + assets * b.assetShareValue;
    assert (Held(m, a, pk, LiabilityQ) + liabilities) * b.liabilityShareValue
        == Held(m, a, pk, LiabilityQ) * b.liabilityShareValue + liabilities * b.liabilityShareValue;
  }

  /** What paying in does, beside the claim: it respects the limits set on it. */
  ghost predicate InRespects(m: Market, m': Market, a: nat, pk: nat, kind: IncreaseType) {
    && OnlyFor(m, m', a, pk)
    && var (c, b) := (m.pools[pk].bank.config, m'.pools[pk].bank);
    var gained, lost := Held(m', a, pk, AssetQ) - Held(m, a, pk, AssetQ),
                        Held(m, a, pk, LiabilityQ) - Held(m', a, pk, LiabilityQ);
    && 0 <= gained && 0 <= lost && c.operationalState != Paused
    && (kind == RepayOnly || c.operationalState == ReduceOnly ==>
          gained * b.assetShareValue <= ZERO_AMOUNT_THRESHOLD * ONE)
    && (0 < gained && kind != BypassDepositLimit && c.depositLimit != U64_MAX ==>
          Product(b.totalAssetShares, b.assetShareValue) < c.depositLimit * ONE)
  }

  lemma PayInShifts(m: Market, a: nat, pk: nat, delta: int, kind: IncreaseType, create: bool, now: nat)
    requires Inv(m) && 0 <= delta && PayIn(m, a, pk, delta, kind, create, now).Ok?
    ensures pk in m.pools
    ensures var m' := PayIn(m, a, pk, delta, kind, create, now).value;
            && Shifts(m, m', a, pk, delta * ONE - Ulps(m.pools[pk].bank) + 1, delta * ONE)
            && SameCash(m, m', pk) && InRespects(m, m', a, pk, kind)
  {
    hide Inv, Position.ClaimEmissions, Position.Raise, Product, RaiseShares, Held, FindBalance, SlotFor;
    SlotForFits(m, pk, a, create, now);
    PoolIsOk(m, pk);
    var (i, p) := PositionAt(m, a, pk, create, now).value;
    ClaimMoves(p, now);
    var c := p.ClaimEmissions(now).value;
    RaiseIs(c, delta, kind);
    RaiseRounding(c, delta);
    RaiseRespects(c, delta, kind);
    RaiseKeepsSound(c, delta, kind);
    var (x, y) := RaiseShares(c, delta);
    var q := c.Raise(delta, kind).value;
    if !m.accounts[a].balances[i].active {
      SlotIdle(m, a, i);
    }
    PutIsFor(m, pk, m.pools[pk].(bank := q.bank), a, i, q.balance);
    var m' := PayIn(m, a, pk, delta, kind, create, now).value;
    assert AssetQ in QUANTITIES && LiabilityQ in QUANTITIES;
    ClaimMoved(m, m', a, pk, x, -y);
  }

  /** Taking out respects the limits set on it, and leaves debts within deposits. */
  ghost predicate OutRespects(m: Market, m': Market, a: nat, pk: nat, kind: DecreaseType) {
    && OnlyFor(m, m', a, pk)
    && var (c, b) := (m.pools[pk].bank.config, m'.pools[pk].bank);
    var lost, gained := Held(m, a, pk, AssetQ) - Held(m', a, pk, AssetQ),
                        Held(m', a, pk, LiabilityQ) - Held(m, a, pk, LiabilityQ);
    var debts := Product(b.totalLiabilityShares, b.liabilityShareValue);
    && 0 <= gained && 0 <= lost && c.operationalState != Paused
    && (kind == WithdrawOnly || c.operationalState == ReduceOnly ==>
          gained * b.liabilityShareValue <= ZERO_AMOUNT_THRESHOLD * ONE)
    && (0 < gained && kind != BypassBorrowLimit && c.borrowLimit != U64_MAX ==> debts < c.borrowLimit * ONE)
    && debts <= Product(b.totalAssetShares, b.assetShareValue)
  }

  lemma PayOutShifts(m: Market, a: nat, pk: nat, delta: int, kind: DecreaseType, create: bool, now: nat)
    requires Inv(m) && 0 <= delta && PayOut(m, a, pk, delta, kind, create, now).Ok?
    ensures pk in m.pools
    ensures var m' := PayOut(m, a, pk, delta, kind, create, now).value;
            && Shifts(m, m', a, pk, -delta * ONE, -delta * ONE + Ulps(m.pools[pk].bank) - 1)
            && SameCash(m, m', pk) && OutRespects(m, m', a, pk, kind)
  {
    hide Inv, Position.ClaimEmissions, Position.Lower, Product, LowerShares, Held, FindBalance, SlotFor;
    SlotForFits(m, pk, a, create, now);
    PoolIsOk(m, pk);
    var (i, p) := PositionAt(m, a, pk, create, now).value;
    ClaimMoves(p, now);
    var c := p.ClaimEmissions(now).value;
    LowerIs(c, delta, kind);
    LowerRounding(c, delta);
    LowerRespects(c, delta, kind);
    LowerKeepsSound(c, delta, kind);
    var (x, y) := LowerShares(c, delta);
    var q := c.Lower(delta, kind).value;
    if !m.accounts[a].balances[i].active {
      SlotIdle(m, a, i);
    }
    PutIsFor(m, pk, m.pools[pk].(bank := q.bank), a, i, q.balance);
    var m' := PayOut(m, a, pk, delta, kind, create, now).value;
    assert AssetQ in QUANTITIES && LiabilityQ in QUANTITIES;
    ClaimMoved(m, m', a, pk, -x, y);
  }

  /** Afterwards the vault may change. */
  lemma VaultIsNoClaim(m: Market, m1: Market, m2: Market, a: nat, pk: nat, low: int, high: int)
    requires Shifts(m, m1, a, pk, low, high) && pk in m2.pools
    requires m2 == m1.PutPool(pk, m1.pools[pk].(vault := m2.pools[pk].vault))
    ensures Shifts(m, m2, a, pk, low, high)
    ensures forall kind :: InRespects(m, m1, a, pk, kind) ==> InRespects(m, m2, a, pk, kind)
    ensures forall kind :: OutRespects(m, m1, a, pk, kind) ==> OutRespects(m, m2, a, pk, kind)
  {
    assert forall k, q :: Held(m2, a, k, q) == Held(m1, a, k, q);
  }

  lemma Drained(m: Market, pk: nat, amount: nat)
    requires DrainVault(m, pk, amount).Ok?
    ensures pk in m.pools
    ensures DrainVault(m, pk, amount).value == m.PutPool(pk, m.pools[pk].(vault := m.pools[pk].vault - amount))
  {
  }

  /** Interest leaves accounts and vault alone. */
  lemma AccruedCash(m: Market, pk: nat, now: nat)
    requires Inv(m) && AccrueAt(m, pk, now).Ok?
    ensures pk in m.pools && Inv(AccrueAt(m, pk, now).value) && pk in AccrueAt(m, pk, now).value.pools
    ensures var m1 := AccrueAt(m, pk, now).value;
            && m1.accounts == m.accounts && m1.fees == m.fees && m1.pools[pk].vault == m.pools[pk].vault
            && m1.pools[pk].bank.config == m.pools[pk].bank.config
            && (forall k :: k in m.pools && k != pk ==> k in m1.pools && m1.pools[k] == m.pools[k])
            && m1.pools[pk].bank == AccruedBank(m, pk, now)
  {
    hide Inv, Net, AccrualCredit, AccrualDebit, BankState.AccrueInterest, BankState.Healthy;
    AccrueAtEffect(m, pk, now);
  }

  // -------------------------------------------------------- tokens in and out

  /** The market once bank `pk` has charged interest. */
  function AfterInterestOn(m: Market, pk: nat, now: nat): Market {
    var r := AccrueAt(m, pk, now);
    if r.Ok? then r.value else m
  }

  /** The value of one ulp of each kind of share then. */
  function UlpsAt(m: Market, pk: nat, now: nat): int {
    if pk in m.pools then Ulps(AccruedBank(m, pk, now)) else 0
  }

  /** From `m`, with interest charged, bank `pk` gains `tokens` and the claim of `a` on it
      moves by between `low` and `high`. */
  ghost predicate Settles(m: Market, m': Market, a: nat, pk: nat, now: nat, tokens: int, low: int, high: int) {
    && pk in m.pools && pk in m'.pools && m'.pools[pk].vault == m.pools[pk].vault + tokens
    && Shifts(AfterInterestOn(m, pk, now), m', a, pk, low, high)
  }

  /** A deposit adds its amount to the vault and to the depositor's claim, less than one ulp
      of each kind of share short. */
  lemma DepositSettles(m: Market, a: nat, pk: nat, amount: nat, fee: TransferFee, now: nat)
    requires Inv(m) && FeeOk(fee) && amount <= U64_MAX && Deposit(m, a, pk, amount, fee, now).Ok?
    ensures pk in m.pools
    ensures var m', value := Deposit(m, a, pk, amount, fee, now).value, amount * ONE * ONE;
            && Settles(m, m', a, pk, now, amount, value - UlpsAt(m, pk, now) + 1, value)
            && InRespects(AfterInterestOn(m, pk, now), m', a, pk, AnyIncrease)
  {
    hide Inv, PayIn, FillVault, AccrueAt, InRespects, OnlyFor, Ulps, AccruedBank, ClaimOn;
    AccruedCash(m, pk, now);
    var m1 := AccrueAt(m, pk, now).value;
    PaidInFull(m, m1, a, pk, amount, fee, AnyIncrease, true, now);
  }

  /** Paying in and receiving the tokens. */
  lemma PaidInFull(m: Market, m1: Market, a: nat, pk: nat, amount: nat, fee: TransferFee, kind: IncreaseType,
                   create: bool, now: nat)
    requires Inv(m1) && FeeOk(fee) && amount <= U64_MAX && pk in m.pools && pk in m1.pools
    requires AccrueAt(m, pk, now) == Ok(m1) && m1.pools[pk].vault == m.pools[pk].vault
    requires m1.pools[pk].bank == AccruedBank(m, pk, now)
    requires PayIn(m1, a, pk, amount * ONE, kind, create, now).Ok?
    requires FillVault(PayIn(m1, a, pk, amount * ONE, kind, create, now).value, pk, fee, amount).Ok?
    ensures var m' := FillVault(PayIn(m1, a, pk, amount * ONE, kind, create, now).value, pk, fee, amount).value;
            var value := amount * ONE * ONE;
            && Settles(m, m', a, pk, now, amount, value - UlpsAt(m, pk, now) + 1, value)
            && InRespects(m1, m', a, pk, kind)
  {
    hide Inv, PayIn, FillVault, AccrueAt, InRespects, AccruedBank, ClaimOn, Ulps, Held;
    PayInShifts(m1, a, pk, amount * ONE, kind, create, now);
    var m2 := PayIn(m1, a, pk, amount * ONE, kind, create, now).value;
    Arrives(m2, pk, fee, amount);
    VaultIsNoClaim(m1, m2, FillVault(m2, pk, fee, amount).value, a, pk,
                   amount * ONE * ONE - Ulps(m1.pools[pk].bank) + 1, amount * ONE * ONE);
  }

  /** A repayment does the same, and deposits no more than dust. */
  lemma RepaySettles(m: Market, a: nat, pk: nat, amount: nat, fee: TransferFee, now: nat)
    requires Inv(m) && FeeOk(fee) && amount <= U64_MAX && Repay(m, a, pk, amount, fee, now).Ok?
    ensures pk in m.pools
    ensures var m', value := Repay(m, a, pk, amount, fee, now).value, amount * ONE * ONE;
            && Settles(m, m', a, pk, now, amount, value - UlpsAt(m, pk, now) + 1, value)
            && InRespects(AfterInterestOn(m, pk, now), m', a, pk, RepayOnly)
  {
    hide Inv, PayIn, FillVault, AccrueAt, InRespects, OnlyFor, Ulps, AccruedBank, ClaimOn;
    AccruedCash(m, pk, now);
    var m1 := AccrueAt(m, pk, now).value;
    PaidInFull(m, m1, a, pk, amount, fee, RepayOnly, false, now);
  }

  /** A withdrawal takes from the vault and from the claim the least that delivers the
      amount asked for, and borrows no more than dust. */
  lemma WithdrawSettles(m: Market, a: nat, pk: nat, amount: nat, fee: TransferFee, feeds: map<nat, Feed>, now: nat)
    returns (sent: nat)
    requires Inv(m) && FeeOk(fee) && amount <= U64_MAX && Withdraw(m, a, pk, amount, fee, feeds, now).Ok?
    ensures Delivers(fee, sent, amount)
    ensures var m', value := Withdraw(m, a, pk, amount, fee, feeds, now).value, sent * ONE * ONE;
            && Settles(m, m', a, pk, now, 0 - sent, -value, -value + UlpsAt(m, pk, now) - 1)
            && OutRespects(AfterInterestOn(m, pk, now), m', a, pk, WithdrawOnly)
  {
    hide Inv, PayOut, DrainVault, AccrueAt, OutRespects, AccruedBank, ClaimOn, Ulps, PreFee, Received, Held, Delivers,
         CheckInitHealth, Exposures;
    AccruedCash(m, pk, now);
    var m1 := AccrueAt(m, pk, now).value;
    PreFeeDelivers(fee, amount);
    sent := PreFee(fee, amount).value;
    PayOutShifts(m1, a, pk, sent * ONE, WithdrawOnly, false, now);
    var m2 := PayOut(m1, a, pk, sent * ONE, WithdrawOnly, false, now).value;
    Drained(m2, pk, sent);
    VaultIsNoClaim(m1, m2, DrainVault(m2, pk, sent).value, a, pk,
                   -(sent * ONE) * ONE, -(sent * ONE) * ONE + Ulps(m1.pools[pk].bank) - 1);
  }

  /** `sent` is the least of which `amount` arrives. */
  ghost predicate Delivers(fee: TransferFee, sent: nat, amount: nat) {
    Received(fee, sent) == amount && forall x: nat :: x < sent ==> Received(fee, x) < amount
  }

  lemma PreFeeDelivers(fee: TransferFee, amount: nat)
    requires FeeOk(fee) && amount <= U64_MAX && PreFee(fee, amount).Ok?
    ensures Delivers(fee, PreFee(fee, amount).value, amount)
  {
    PreFeeIsLeast(fee, amount);
  }

  /** The origination fee of a loan of `sent` tokens, and what the program takes of it. */
  ghost predicate FeeIs(m: Market, pk: nat, sent: nat, fee: int, program: int) {
    && pk in m.pools && IsProduct(sent * ONE, m.pools[pk].bank.config.rates.originationFee, fee)
    && IsProduct(fee, m.fees.rate, program)
  }

  /** A fee is booked to the group, the program's part of it to the program, unless a
      counter overflows. */
  ghost predicate FeeBooked(m: Market, m': Market, pk: nat, fee: int, program: int) {
    && pk in m.pools && pk in m'.pools
    && var (b, b') := (m.pools[pk].bank, m'.pools[pk].bank);
    && b'.insuranceFees == b.insuranceFees
    && (InRange(fee - program) && InRange(b.groupFees + fee - program) && InRange(b.programFees + program) ==>
          b'.groupFees == b.groupFees + fee - program && b'.programFees == b.programFees + program)
  }

  /** Lending takes the tokens from the vault, and the tokens and the fee from the claim. */
  lemma LendTokensShifts(m: Market, a: nat, pk: nat, sent: nat, now: nat) returns (fee: int, program: int)
    requires Inv(m) && LendTokens(m, a, pk, sent, now).Ok?
    ensures pk in m.pools && FeeIs(m, pk, sent, fee, program)
    ensures var m', value := LendTokens(m, a, pk, sent, now).value, (sent * ONE + fee) * ONE;
            && Shifts(m, m', a, pk, -value, -value + Ulps(m.pools[pk].bank) - 1)
            && pk in m'.pools && m'.pools[pk].vault == m.pools[pk].vault - sent
            && FeeBooked(m, m', pk, fee, program)
            && OutRespects(m, m', a, pk, AnyDecrease)
  {
    hide Inv, PayOut, DrainVault, OutRespects, ClaimOn, Ulps, Held, OriginationFee, BookOriginationFee;
    OriginationFeeIs(m.pools[pk].bank, sent);
    fee := OriginationFee(m.pools[pk].bank, sent).value;
    var delta := sent * ONE + fee;
    PayOutShifts(m, a, pk, delta, AnyDecrease, true, now);
    var m1 := PayOut(m, a, pk, delta, AnyDecrease, true, now).value;
    Drained(m1, pk, sent);
    var m2 := DrainVault(m1, pk, sent).value;
    VaultIsNoClaim(m, m1, m2, a, pk, -delta * ONE, -delta * ONE + Ulps(m.pools[pk].bank) - 1);
    program := ProgramPart(m.fees, fee);
    ProductBounds(fee, m.fees.rate);
    FeeIsNoClaim(m, m2, a, pk, fee, program, -delta * ONE, -delta * ONE + Ulps(m.pools[pk].bank) - 1);
  }

  lemma OriginationFeeIs(bank: BankState, sent: nat)
    requires OriginationFee(bank, sent).Ok?
    ensures 0 <= OriginationFee(bank, sent).value
    ensures IsProduct(sent * ONE, bank.config.rates.originationFee, OriginationFee(bank, sent).value)
  {
    ProductBounds(sent * ONE, bank.config.rates.originationFee);
  }

  /** Booking the fee changes no claim. */
  lemma FeeIsNoClaim(m: Market, m1: Market, a: nat, pk: nat, fee: int, program: int, low: int, high: int)
    requires Shifts(m, m1, a, pk, low, high) && BookOriginationFee(m1, pk, fee).Ok?
    requires program == ProgramPart(m1.fees, fee)
    requires OutRespects(m, m1, a, pk, AnyDecrease)
    ensures var m2 := BookOriginationFee(m1, pk, fee).value;
            && Shifts(m, m2, a, pk, low, high) && OutRespects(m, m2, a, pk, AnyDecrease)
            && m2.pools[pk].vault == m1.pools[pk].vault
            && FeeBooked(m1, m2, pk, fee, program)
  {
    hide Held;
    var m2 := BookOriginationFee(m1, pk, fee).value;
    assert m2.accounts == m1.accounts;
    assert forall k, q :: Held(m2, a, k, q) == Held(m1, a, k, q) by { SameHeld(m1, m2, a); }
    if fee == 0 {
      assert program == 0;
    }
  }

  lemma SameHeld(m: Market, m': Market, a: nat)
    requires a < |m.accounts| && m'.accounts == m.accounts
    ensures forall k, q :: Held(m', a, k, q) == Held(m, a, k, q)
  {
  }

  /** A borrow takes from the vault the least that delivers the amount asked for, and from
      the claim that and the origination fee, which is booked to group and
      program. */
  lemma BorrowSettles(m: Market, a: nat, pk: nat, amount: nat, fee: TransferFee, feeds: map<nat, Feed>, now: nat)
    returns (sent: nat, origination: int, program: int)
    requires Inv(m) && FeeOk(fee) && amount <= U64_MAX && Borrow(m, a, pk, amount, fee, feeds, now).Ok?
    ensures Delivers(fee, sent, amount) && FeeIs(AfterInterestOn(m, pk, now), pk, sent, origination, program)
    ensures var m', value := Borrow(m, a, pk, amount, fee, feeds, now).value, (sent * ONE + origination) * ONE;
            && Settles(m, m', a, pk, now, 0 - sent, -value, -value + UlpsAt(m, pk, now) - 1)
            && FeeBooked(AfterInterestOn(m, pk, now), m', pk, origination, program)
            && OutRespects(AfterInterestOn(m, pk, now), m', a, pk, AnyDecrease)
  {
    hide Inv, LendTokens, AccrueAt, OutRespects, AccruedBank, ClaimOn, Ulps, PreFee, Received, Held, FeeIs, FeeBooked,
         OnlyFor, Delivers, CheckInitHealth, Exposures;
    AccruedCash(m, pk, now);
    PreFeeDelivers(fee, amount);
    sent := PreFee(fee, amount).value;
    origination, program := LendTokensShifts(AccrueAt(m, pk, now).value, a, pk, sent, now);
  }

  // ------------------------------------------------------- whole balances

  lemma {:induction false} NoOneHolds(bs: seq<BalanceState>, pk: nat, q: Quantity)
    requires forall j :: 0 <= j < |bs| ==> !(bs[j].active && bs[j].bankPk == pk)
    ensures SumBalances(bs, pk, q) == 0
  {
    if bs != [] {
      NoOneHolds(bs[1..], pk, q);
    }
  }

  lemma {:induction false} OneHolds(bs: seq<BalanceState>, pk: nat, q: Quantity, i: nat)
    requires i < |bs| && forall j :: 0 <= j < |bs| && j != i ==> !(bs[j].active && bs[j].bankPk == pk)
    ensures SumBalances(bs, pk, q) == Holding(bs[i], pk, q)
  {
    if i == 0 {
      NoOneHolds(bs[1..], pk, q);
    } else {
      OneHolds(bs[1..], pk, q, i - 1);
    }
  }

  /** An account holds in bank `pk` what its one balance there does. */
  lemma HeldIs(m: Market, a: nat, pk: nat, i: nat)
    requires Inv(m) && a < |m.accounts| && i < |m.accounts[a].balances|
    requires m.accounts[a].balances[i].active && m.accounts[a].balances[i].bankPk == pk
    ensures forall q :: Held(m, a, pk, q) == Holding(m.accounts[a].balances[i], pk, q)
  {
    var bs := m.accounts[a].balances;
    assert AccountOk(m.accounts[a], m.pools.Keys);
    assert Distinct(bs);
    forall q
      ensures SumBalances(bs, pk, q) == Holding(bs[i], pk, q)
    {
      OneHolds(bs, pk, q, i);
    }
  }

  /** Account `a` holds nothing of bank `pk` any more, and nobody else is affected. */
  ghost predicate Closed(m: Market, m': Market, a: nat, pk: nat) {
    && OnlyFor(m, m', a, pk) && (forall q :: Held(m', a, pk, q) == 0)
    && m.pools[pk].bank.config.operationalState != Paused
    && m'.pools[pk].bank.groupFees == m.pools[pk].bank.groupFees
    && m'.pools[pk].bank.programFees == m.pools[pk].bank.programFees
  }

  /** Whole tokens of the deposit leave the vault, the fraction goes to insurance, and debts
      stay within deposits. */
  ghost predicate WholePaidOut(m: Market, m': Market, a: nat, pk: nat) {
    && Closed(m, m', a, pk)
    && var (p, p') := (m.pools[pk], m'.pools[pk]);
       var amount, paid := Product(Held(m, a, pk, AssetQ), p.bank.assetShareValue), p.vault - p'.vault;
       && paid * ONE <= amount < paid * ONE + ONE && ZERO_AMOUNT_THRESHOLD < amount
       && p'.bank.insuranceFees == p.bank.insuranceFees + amount - paid * ONE
       && Product(p'.bank.totalLiabilityShares, p'.bank.liabilityShareValue)
          <= Product(p'.bank.totalAssetShares, p'.bank.assetShareValue)
  }

  /** The debt enters the vault, rounded up to whole tokens, and the excess goes to
      insurance. */
  ghost predicate WholePaidIn(m: Market, m': Market, a: nat, pk: nat) {
    && Closed(m, m', a, pk)
    && var (p, p') := (m.pools[pk], m'.pools[pk]);
       var amount, due := Product(Held(m, a, pk, LiabilityQ), p.bank.liabilityShareValue), p'.vault - p.vault;
       && due * ONE - ONE < amount <= due * ONE && ZERO_AMOUNT_THRESHOLD < amount
       && p'.bank.insuranceFees == p.bank.insuranceFees + due * ONE - amount
  }

  lemma TakeAllRespects(p: Position)
    requires p.TakeAll().Ok?
    ensures p.bank.config.operationalState != Paused
    ensures ZERO_AMOUNT_THRESHOLD < Product(p.balance.assetShares, p.bank.assetShareValue)
    ensures var b := p.TakeAll().value.0.bank;
            Product(b.totalLiabilityShares, b.liabilityShareValue) <= Product(b.totalAssetShares, b.assetShareValue)
  {
    hide Product;
  }

  lemma PayAllRespects(p: Position)
    requires p.PayAll().Ok?
    ensures p.bank.config.operationalState != Paused
    ensures ZERO_AMOUNT_THRESHOLD < Product(p.balance.liabilityShares, p.bank.liabilityShareValue)
  {
    hide Product;
  }

  /** The slot of a balance that is not created. */
  lemma FoundSlot(m: Market, a: nat, pk: nat, now: nat)
    requires PositionAt(m, a, pk, false, now).Ok?
    ensures pk in m.pools && a < |m.accounts|
    ensures var (i, p) := PositionAt(m, a, pk, false, now).value;
            && i < |m.accounts[a].balances| && p == Position(m.pools[pk].bank, m.accounts[a].balances[i])
            && p.balance.active && p.balance.bankPk == pk
  {
  }

  /** Account `a`'s balance in slot `i` is emptied. */
  lemma Emptied(m: Market, a: nat, pk: nat, i: nat, pool: Pool)
    requires Inv(m) && pk in m.pools && SlotFits(m, pk, a, i) && m.accounts[a].balances[i].active
    requires SameTerms(m.pools[pk].bank, pool.bank)
    ensures var m' := m.Put(pk, pool, a, i, EMPTY_BALANCE);
            OnlyFor(m, m', a, pk) && forall q :: Held(m', a, pk, q) == 0
  {
    hide Inv, FindBalance, Held;
    HeldIs(m, a, pk, i);
    PutIsFor(m, pk, pool, a, i, EMPTY_BALANCE);
  }

  lemma TakeAllAtPays(m: Market, a: nat, pk: nat, now: nat)
    requires Inv(m) && TakeAllAt(m, a, pk, now).Ok?
    requires DrainVault(TakeAllAt(m, a, pk, now).value.0, pk, TakeAllAt(m, a, pk, now).value.1).Ok?
    ensures WholePaidOut(m, DrainVault(TakeAllAt(m, a, pk, now).value.0, pk, TakeAllAt(m, a, pk, now).value.1).value,
                         a, pk)
  {
    hide Inv, Position.ClaimEmissions, Position.TakeAll, Product, Held, SlotFits, PositionAt, OnlyFor, DrainVault;
    FoundSlot(m, a, pk, now);
    FoundFits(m, a, pk, now);
    PoolIsOk(m, pk);
    var (i, p) := PositionAt(m, a, pk, false, now).value;
    ClaimMoves(p, now);
    var c := p.ClaimEmissions(now).value;
    TakeAllIs(c);
    TakeAllRespects(c);
    var (q, paid) := c.TakeAll().value;
    HeldIs(m, a, pk, i);
    var m1 := TakeAllAt(m, a, pk, now).value.0;
    Emptied(m, a, pk, i, m1.pools[pk]);
    assert m1 == m.Put(pk, m1.pools[pk], a, i, EMPTY_BALANCE);
    Drained(m1, pk, paid);
    StaysFor(m, m1, DrainVault(m1, pk, paid).value, a, pk);
  }

  lemma FoundFits(m: Market, a: nat, pk: nat, now: nat)
    requires Inv(m) && PositionAt(m, a, pk, false, now).Ok?
    ensures var (i, p) := PositionAt(m, a, pk, false, now).value; SlotFits(m, pk, a, i) && p.balance.Sound()
  {
    hide Inv, FindBalance;
    SlotForFits(m, pk, a, false, now);
  }

  lemma StaysFor(m: Market, m1: Market, m2: Market, a: nat, pk: nat)
    requires OnlyFor(m, m1, a, pk) && pk in m2.pools
    requires m2 == m1.PutPool(pk, m1.pools[pk].(vault := m2.pools[pk].vault))
    ensures OnlyFor(m, m2, a, pk) && forall q :: Held(m2, a, pk, q) == Held(m1, a, pk, q)
  {
    hide Held;
    SameHeld(m1, m2, a);
  }

  lemma PayAllAtPays(m: Market, a: nat, pk: nat, fee: TransferFee, now: nat)
    requires Inv(m) && FeeOk(fee) && PayAllAt(m, a, pk, now).Ok?
    requires FillVault(PayAllAt(m, a, pk, now).value.0, pk, fee, PayAllAt(m, a, pk, now).value.1).Ok?
    ensures WholePaidIn(m, FillVault(PayAllAt(m, a, pk, now).value.0, pk, fee, PayAllAt(m, a, pk, now).value.1).value,
                        a, pk)
  {
    hide Inv, Position.ClaimEmissions, Position.PayAll, Product, Held, SlotFits, PositionAt, OnlyFor, FillVault, PreFee,
         Received;
    FoundSlot(m, a, pk, now);
    FoundFits(m, a, pk, now);
    PoolIsOk(m, pk);
    var (i, p) := PositionAt(m, a, pk, false, now).value;
    ClaimMoves(p, now);
    var c := p.ClaimEmissions(now).value;
    PayAllIs(c);
    PayAllRespects(c);
    PayAllFits(c);
    var (q, due) := c.PayAll().value;
    HeldIs(m, a, pk, i);
    var m1 := PayAllAt(m, a, pk, now).value.0;
    Emptied(m, a, pk, i, m1.pools[pk]);
    assert m1 == m.Put(pk, m1.pools[pk], a, i, EMPTY_BALANCE);
    Arrives(m1, pk, fee, due);
    StaysFor(m, m1, FillVault(m1, pk, fee, due).value, a, pk);
  }

  lemma PayAllFits(p: Position)
    requires p.PayAll().Ok?
    ensures p.PayAll().value.1 <= U64_MAX
  {
    hide Product;
  }

  /** Withdrawing all of a deposit, or repaying all of a debt, once interest is charged. */
  lemma AllSettles(m: Market, a: nat, pk: nat, fee: TransferFee, feeds: map<nat, Feed>, now: nat)
    requires Inv(m) && FeeOk(fee)
    ensures WithdrawAll(m, a, pk, feeds, now).Ok? ==>
              WholePaidOut(AfterInterestOn(m, pk, now), WithdrawAll(m, a, pk, feeds, now).value, a, pk)
    ensures RepayAll(m, a, pk, fee, now).Ok? ==>
              WholePaidIn(AfterInterestOn(m, pk, now), RepayAll(m, a, pk, fee, now).value, a, pk)
  {
    hide Inv, TakeAllAt, PayAllAt, DrainVault, FillVault, AccrueAt, WholePaidIn, WholePaidOut, CheckInitHealth, Exposures;
    if WithdrawAll(m, a, pk, feeds, now).Ok? {
      AccruedCash(m, pk, now);
      TakeAllAtPays(AccrueAt(m, pk, now).value, a, pk, now);
    }
    if RepayAll(m, a, pk, fee, now).Ok? {
      AccruedCash(m, pk, now);
      PayAllAtPays(AccrueAt(m, pk, now).value, a, pk, fee, now);
    }
  }

  /** Closing a balance, of which both sides are dust, leaves the account nothing in the bank
      and vault and fees alone. */
  lemma CloseClears(m: Market, a: nat, pk: nat, now: nat)
    requires Inv(m) && CloseBalance(m, a, pk, now).Ok?
    ensures var m1, m' := AfterInterestOn(m, pk, now), CloseBalance(m, a, pk, now).value;
            && OnlyFor(m1, m', a, pk) && SameCash(m1, m', pk) && (forall q :: Held(m', a, pk, q) == 0)
            && Product(Held(m1, a, pk, AssetQ), m1.pools[pk].bank.assetShareValue) < ZERO_AMOUNT_THRESHOLD
            && Product(Held(m1, a, pk, LiabilityQ), m1.pools[pk].bank.liabilityShareValue) < ZERO_AMOUNT_THRESHOLD
  {
    hide Inv, AccrueAt, Position.ClaimEmissions, Product, Held, SlotFits, PositionAt, OnlyFor;
    AccruedCash(m, pk, now);
    var m1, m' := AccrueAt(m, pk, now).value, CloseBalance(m, a, pk, now).value;
    FoundSlot(m1, a, pk, now);
    FoundFits(m1, a, pk, now);
    PoolIsOk(m1, pk);
    var (i, p) := PositionAt(m1, a, pk, false, now).value;
    ClaimMoves(p, now);
    HeldIs(m1, a, pk, i);
    Emptied(m1, a, pk, i, m'.pools[pk]);
    assert m' == m1.Put(pk, m'.pools[pk], a, i, EMPTY_BALANCE);
  }

  // --------------------------------------------------------------- emissions

  /** The balance of account `a` in bank `pk`. */
  function PositionOf(m: Market, a: nat, pk: nat): Option<Position> {
    if a < |m.accounts| && pk in m.pools && FindBalance(m.accounts[a].balances, pk).Some?
    then Some(Position(m.pools[pk].bank, m.accounts[a].balances[FindBalance(m.accounts[a].balances, pk).value]))
    else None
  }

  /** Account `a` is credited with what its balance may claim, the bank debited, and `paid`
      tokens are paid out; shares, vault and fees stay. */
  ghost predicate CreditsEmissions(m: Market, m': Market, a: nat, pk: nat, now: nat, earned: int, paid: int) {
    && OnlyFor(m, m', a, pk) && SameCash(m, m', pk) && PositionOf(m, a, pk).Some?
    && Held(m', a, pk, AssetQ) == Held(m, a, pk, AssetQ) && Held(m', a, pk, LiabilityQ) == Held(m, a, pk, LiabilityQ)
    && m'.pools[pk].emissionsPaid == m.pools[pk].emissionsPaid + paid
    && var claimed := m.pools[pk].bank.emissionsRemaining - m'.pools[pk].bank.emissionsRemaining;
       && MayClaim(PositionOf(m, a, pk).value, now, earned, claimed)
       && Held(m', a, pk, EmissionQ) == Held(m, a, pk, EmissionQ) + claimed - paid * ONE
  }

  lemma SettleEmissionsClaims(m: Market, a: nat, pk: nat, now: nat) returns (earned: int)
    requires Inv(m) && SettleEmissions(m, a, pk, now).Ok?
    ensures CreditsEmissions(m, SettleEmissions(m, a, pk, now).value, a, pk, now, earned, 0)
  {
    hide Inv, Position.ClaimEmissions, Held, SlotFits, FindFrom, OnlyFor, MayClaim;
    FoundSlot(m, a, pk, now);
    FoundFits(m, a, pk, now);
    PoolIsOk(m, pk);
    var (i, p) := PositionAt(m, a, pk, false, now).value;
    ClaimMoves(p, now);
    var q := p.ClaimEmissions(now).value;
    earned := SideEarns(p, now);
    Credited(m, a, pk, i, m.pools[pk].(bank := q.bank), q.balance);
  }

  /** Withdrawing emissions pays the whole tokens and leaves a fraction. */
  lemma WithdrawEmissionsPays(m: Market, a: nat, pk: nat, now: nat) returns (earned: int, paid: nat)
    requires Inv(m) && WithdrawEmissions(m, a, pk, now).Ok?
    ensures CreditsEmissions(m, WithdrawEmissions(m, a, pk, now).value, a, pk, now, earned, paid)
    ensures 0 <= Held(WithdrawEmissions(m, a, pk, now).value, a, pk, EmissionQ) < ONE
  {
    hide Inv, Position.ClaimEmissions, Position.PayEmissions, Held, SlotFits, FindFrom, OnlyFor, MayClaim;
    FoundSlot(m, a, pk, now);
    FoundFits(m, a, pk, now);
    PoolIsOk(m, pk);
    var (i, p) := PositionAt(m, a, pk, false, now).value;
    ClaimMoves(p, now);
    var c := p.ClaimEmissions(now).value;
    earned := SideEarns(p, now);
    PayEmissionsMoves(c);
    var q := c.PayEmissions().value.0;
    paid := c.PayEmissions().value.1;
    var pool := m.pools[pk];
    Credited(m, a, pk, i, pool.(bank := q.bank, emissionsPaid := pool.emissionsPaid + paid), q.balance);
  }

  /** Account `a`'s balance in slot `i` becomes `b`. */
  lemma Credited(m: Market, a: nat, pk: nat, i: nat, pool: Pool, b: BalanceState)
    requires Inv(m) && pk in m.pools && SlotFits(m, pk, a, i) && m.accounts[a].balances[i].active
    requires SameTerms(m.pools[pk].bank, pool.bank) && BalanceFits(b, pk) && b.active
    ensures var m' := m.Put(pk, pool, a, i, b);
            && OnlyFor(m, m', a, pk)
            && (forall q :: Held(m, a, pk, q) == Holding(m.accounts[a].balances[i], pk, q))
            && (forall q :: Held(m', a, pk, q) == Holding(b, pk, q))
  {
    hide Inv, FindBalance, Held;
    HeldIs(m, a, pk, i);
    PutIsFor(m, pk, pool, a, i, b);
  }

  // ------------------------------------------------------------- liquidation

  /** A claim that is not the one shifted stays. */
  lemma ClaimElsewhere(m: Market, m': Market, a: nat, pk: nat, c: nat, k: nat)
    requires OnlyFor(m, m', a, pk) && c < |m.accounts| && k in m.pools && (c != a || k != pk)
    ensures ClaimOn(m', c, k) == ClaimOn(m, c, k)
  {
  }

  /** Only the two accounts and the two banks are affected. */
  ghost predicate OnlyBetween(m: Market, m': Market, a: nat, b: nat, assetPk: nat, debtPk: nat) {
    && m'.pools.Keys == m.pools.Keys && assetPk in m.pools && debtPk in m.pools
    && |m'.accounts| == |m.accounts| && a < |m.accounts| && b < |m.accounts|
    && (forall k :: k in m.pools && k != assetPk && k != debtPk ==> m'.pools[k] == m.pools[k])
    && (forall c :: 0 <= c < |m.accounts| && c != a && c != b ==> m'.accounts[c] == m.accounts[c])
  }

  /** In a liquidation of account `b` by account `a`, the collateral goes from `b` to `a`,
      `paid` of the debt to `a` and `received` of it away from `b`, each within
      the rounding of one transfer; `b` does not borrow collateral beyond dust. */
  ghost predicate SwapsClaims(m: Market, m': Market, a: nat, b: nat, assetPk: nat, debtPk: nat, amount: nat, paid: int,
                              received: int)
  {
    && OnlyBetween(m, m', a, b, assetPk, debtPk)
    && var (u, v, value) := (Ulps(m.pools[assetPk].bank), Ulps(m.pools[debtPk].bank), amount * ONE * ONE);
       && -value <= ClaimOn(m', b, assetPk) - ClaimOn(m, b, assetPk) < -value + u
       && value - u < ClaimOn(m', a, assetPk) - ClaimOn(m, a, assetPk) <= value
       && -paid * ONE <= ClaimOn(m', a, debtPk) - ClaimOn(m, a, debtPk) < -paid * ONE + v
       && received * ONE - v < ClaimOn(m', b, debtPk) - ClaimOn(m, b, debtPk) <= received * ONE
       && (Held(m', b, assetPk, LiabilityQ) - Held(m, b, assetPk, LiabilityQ)) * m.pools[assetPk].bank.liabilityShareValue
          <= ZERO_AMOUNT_THRESHOLD * ONE
  }

  /** Whole tokens of `fee` leave the vault of bank `pk` for insurance, which is credited
      with the fraction. */
  ghost predicate PaysInsurance(m: Market, m': Market, pk: nat, fee: int) {
    && pk in m.pools && pk in m'.pools
    && var (p, p') := (m.pools[pk], m'.pools[pk]);
       var tokens := p.vault - p'.vault;
       && tokens * ONE <= fee < tokens * ONE + ONE
       && p'.bank.insuranceFees == p.bank.insuranceFees + fee - tokens * ONE
  }

  /** Booking the insurance fee changes no claim. */
  lemma InsuranceFeeBooked(m: Market, pk: nat, fee: int)
    requires BookInsuranceFee(m, pk, fee).Ok?
    ensures pk in m.pools
    ensures var m' := BookInsuranceFee(m, pk, fee).value;
            && m'.accounts == m.accounts && m'.pools.Keys == m.pools.Keys && m'.fees == m.fees
            && (forall k :: k in m.pools && k != pk ==> m'.pools[k] == m.pools[k])
            && SameTerms(m.pools[pk].bank, m'.pools[pk].bank) && PaysInsurance(m, m', pk, fee)
  {
  }

  lemma SwapPositionsSwaps(m: Market, a: nat, b: nat, assetPk: nat, debtPk: nat, amount: nat, paid: int, received: int,
                           now: nat)
    requires Inv(m) && assetPk != debtPk && a != b && 0 <= received <= paid
    requires SwapPositions(m, a, b, assetPk, debtPk, amount, paid, received, now).Ok?
    ensures var m' := SwapPositions(m, a, b, assetPk, debtPk, amount, paid, received, now).value;
            && SwapsClaims(m, m', a, b, assetPk, debtPk, amount, paid, received)
            && SameCash(m, m', assetPk) && PaysInsurance(m, m', debtPk, paid - received)
  {
    hide Inv, PayIn, PayOut, BookInsuranceFee, ClaimOn, InRespects, OutRespects, Net, Held;
    PayOutShifts(m, a, debtPk, paid, BypassBorrowLimit, true, now);
    PayOutEffect(m, a, debtPk, paid, BypassBorrowLimit, true, now);
    var m1 := PayOut(m, a, debtPk, paid, BypassBorrowLimit, true, now).value;
    PayOutShifts(m1, b, assetPk, amount * ONE, WithdrawOnly, false, now);
    PayOutEffect(m1, b, assetPk, amount * ONE, WithdrawOnly, false, now);
    var m2 := PayOut(m1, b, assetPk, amount * ONE, WithdrawOnly, false, now).value;
    PayInShifts(m2, a, assetPk, amount * ONE, BypassDepositLimit, true, now);
    PayInEffect(m2, a, assetPk, amount * ONE, BypassDepositLimit, true, now);
    var m3 := PayIn(m2, a, assetPk, amount * ONE, BypassDepositLimit, true, now).value;
    PayInShifts(m3, b, debtPk, received, AnyIncrease, true, now);
    var m4 := PayIn(m3, b, debtPk, received, AnyIncrease, true, now).value;
    FourSwap(m, m1, m2, m3, m4, a, b, assetPk, debtPk, amount, paid, received);
    InsuranceFeeBooked(m4, debtPk, paid - received);
    var m5 := BookInsuranceFee(m4, debtPk, paid - received).value;
    BookedAfter(m, m4, m5, a, b, assetPk, debtPk, amount, paid, received);
  }

  lemma FourSwap(m: Market, m1: Market, m2: Market, m3: Market, m4: Market, a: nat, b: nat, assetPk: nat, debtPk: nat,
                 amount: nat, paid: int, received: int)
    requires a != b && assetPk != debtPk && assetPk in m.pools && debtPk in m.pools
    requires var (u, v, value) := (Ulps(m.pools[assetPk].bank), Ulps(m.pools[debtPk].bank), amount * ONE * ONE);
             && Shifts(m, m1, a, debtPk, -paid * ONE, -paid * ONE + v - 1)
             && Shifts(m1, m2, b, assetPk, -value, -value + u - 1)
             && Shifts(m2, m3, a, assetPk, value - u + 1, value)
             && Shifts(m3, m4, b, debtPk, received * ONE - v + 1, received * ONE)
    requires SameCash(m, m1, debtPk) && SameCash(m1, m2, assetPk) && SameCash(m2, m3, assetPk) && SameCash(m3, m4, debtPk)
    requires OutRespects(m1, m2, b, assetPk, WithdrawOnly)
    ensures SwapsClaims(m, m4, a, b, assetPk, debtPk, amount, paid, received)
    ensures SameCash(m, m4, assetPk) && SameCash(m, m4, debtPk)
  {
    hide ClaimOn, Held;
    FourShifts(m, m1, m2, m3, m4, a, b, assetPk, debtPk);
  }

  lemma BookedAfter(m: Market, m1: Market, m2: Market, a: nat, b: nat, assetPk: nat, debtPk: nat, amount: nat, paid: int,
                    received: int)
    requires SwapsClaims(m, m1, a, b, assetPk, debtPk, amount, paid, received) && assetPk != debtPk
    requires m2.accounts == m1.accounts && m2.pools.Keys == m1.pools.Keys
    requires SameTerms(m1.pools[debtPk].bank, m2.pools[debtPk].bank)
    requires forall k :: k in m1.pools && k != debtPk ==> m2.pools[k] == m1.pools[k]
    ensures SwapsClaims(m, m2, a, b, assetPk, debtPk, amount, paid, received)
  {
    hide ClaimOn;
    SameClaims(m1, m2, a, assetPk);
    SameClaims(m1, m2, a, debtPk);
    SameClaims(m1, m2, b, assetPk);
    SameClaims(m1, m2, b, debtPk);
  }

  lemma SameClaims(m: Market, m': Market, a: nat, pk: nat)
    requires a < |m.accounts| && m'.accounts == m.accounts && pk in m.pools && pk in m'.pools
    requires SameTerms(m.pools[pk].bank, m'.pools[pk].bank)
    ensures ClaimOn(m', a, pk) == ClaimOn(m, a, pk)
  {
  }

  /** Four shifts of four different claims. */
  lemma FourShifts(m: Market, m1: Market, m2: Market, m3: Market, m4: Market, a: nat, b: nat, assetPk: nat, debtPk: nat)
    requires a != b && assetPk != debtPk && assetPk in m.pools && debtPk in m.pools
    requires OnlyFor(m, m1, a, debtPk) && OnlyFor(m1, m2, b, assetPk) && OnlyFor(m2, m3, a, assetPk)
    requires OnlyFor(m3, m4, b, debtPk)
    ensures ClaimOn(m4, a, debtPk) == ClaimOn(m1, a, debtPk)
    ensures ClaimOn(m1, b, assetPk) == ClaimOn(m, b, assetPk) && ClaimOn(m4, b, assetPk) == ClaimOn(m2, b, assetPk)
    ensures ClaimOn(m2, a, assetPk) == ClaimOn(m, a, assetPk) && ClaimOn(m4, a, assetPk) == ClaimOn(m3, a, assetPk)
    ensures ClaimOn(m3, b, debtPk) == ClaimOn(m, b, debtPk)
    ensures Held(m1, b, assetPk, LiabilityQ) == Held(m, b, assetPk, LiabilityQ)
    ensures Held(m4, b, assetPk, LiabilityQ) == Held(m2, b, assetPk, LiabilityQ)
  {
    hide ClaimOn;
    ClaimElsewhere(m, m1, a, debtPk, b, assetPk);
    ClaimElsewhere(m, m1, a, debtPk, a, assetPk);
    ClaimElsewhere(m, m1, a, debtPk, b, debtPk);
    ClaimElsewhere(m1, m2, b, assetPk, a, debtPk);
    ClaimElsewhere(m1, m2, b, assetPk, a, assetPk);
    ClaimElsewhere(m1, m2, b, assetPk, b, debtPk);
    ClaimElsewhere(m2, m3, a, assetPk, a, debtPk);
    ClaimElsewhere(m2, m3, a, assetPk, b, assetPk);
    ClaimElsewhere(m2, m3, a, assetPk, b, debtPk);
    ClaimElsewhere(m3, m4, b, debtPk, a, debtPk);
    ClaimElsewhere(m3, m4, b, debtPk, b, assetPk);
    ClaimElsewhere(m3, m4, b, debtPk, a, assetPk);
  }
}
