/** Emissions of a balance claimed in one go or in parts. */
module Emissions {
  import opened Results
  import opened FixedPoint
  import opened Interest
  import opened Valuation
  import opened Positions

  /** Claim at each of `times` in turn. */
  function ClaimEach(p: Position, times: seq<nat>): Result<Position>
    decreases |times|
  {
    if times == [] then Ok(p) else
    var q :- p.ClaimEmissions(times[0]);
    ClaimEach(q, times[1..])
  }

  /** What `seconds` earn on the amount that earns emissions, before the cap. */
  function Earned(p: Position, seconds: int): int {
    var base := p.EmissionsBase();
    if base.Err? || base.value == None || 24 <= p.bank.mintDecimals then 0 else
    seconds * Truncated(base.value.value * ONE, Pow10(p.bank.mintDecimals) * ONE) / YEAR * p.bank.emissionsRate
  }

  function Outstanding(p: Position): int {
    p.balance.emissionsOutstanding
  }

  /** A claim yields what was earned, or what is left if that is less. */
  lemma ClaimIs(p: Position, now: nat)
    requires p.Sound() && MIN_EMISSIONS_START_TIME <= p.balance.lastUpdate && p.ClaimEmissions(now).Ok?
    requires p.EmissionsBase().value.Some?
    ensures p.balance.lastUpdate <= now
    ensures var q := p.ClaimEmissions(now).value;
            && Claimed(p, q, Min(Earned(p, now - p.balance.lastUpdate), p.bank.emissionsRemaining), now)
            && q.EmissionsBase() == p.EmissionsBase()
            && (forall s: int :: Earned(q, s) == Earned(p, s))
  {
    EmissionsBaseNonNegative(p);
    EmissionsAre(now - p.balance.lastUpdate, p.EmissionsBase().value.value, p.bank.mintDecimals, p.bank.emissionsRate);
  }

  /** Over `seconds`, `amount` earns `e` at a yearly `rate` per token, rounded down to whole
      ulps of a token and to whole rates. */
  ghost predicate Earns(e: int, amount: int, seconds: int, rate: nat, decimals: nat) {
    var scale := Pow10(decimals);
    && 0 <= e && e * (YEAR * scale) <= seconds * amount * rate
    && seconds * amount * rate <= (e + rate) * (YEAR * scale) + seconds * rate * scale
  }

  /** `claimed` is what `p` may claim at `now`.  A deposit earns if lending is rewarded, a debt
      if borrowing is, by what it is worth and since it last claimed; time before
      emissions began does not count.  No more is claimed than remains, and
      nothing otherwise. */
  ghost predicate MayClaim(p: Position, now: nat, earned: int, claimed: int) {
    var b := p.bank;
    var seconds := if p.balance.lastUpdate < MIN_EMISSIONS_START_TIME then 0 else now - p.balance.lastUpdate;
    if ONE <= p.balance.assetShares && b.lendingEmissions then
      && claimed == Min(earned, b.emissionsRemaining)
      && Earns(earned, Product(p.balance.assetShares, b.assetShareValue), seconds, b.emissionsRate, b.mintDecimals)
    else if ONE <= p.balance.liabilityShares && b.borrowEmissions then
      && claimed == Min(earned, b.emissionsRemaining)
      && Earns(earned, Product(p.balance.liabilityShares, b.liabilityShareValue), seconds, b.emissionsRate, b.mintDecimals)
    else claimed == 0
  }

  lemma SideEarns(p: Position, now: nat) returns (earned: int)
    requires p.Sound() && p.ClaimEmissions(now).Ok?
    ensures MayClaim(p, now, earned, Outstanding(p.ClaimEmissions(now).value) - Outstanding(p))
  {
    hide Product, CalcEmissions, Pow10, Truncated;
    EmissionsBaseNonNegative(p);
    earned := 0;
    if p.EmissionsBase().value.Some? {
      var amount := p.EmissionsBase().value.value;
      var last := if p.balance.lastUpdate < MIN_EMISSIONS_START_TIME then now else p.balance.lastUpdate;
      EmissionsAre(now - last, amount, p.bank.mintDecimals, p.bank.emissionsRate);
      earned := CalcEmissions((now - last) * ONE, amount, p.bank.mintDecimals, p.bank.emissionsRate * ONE).value;
      EarnedIs(amount, now - last, p.bank.emissionsRate, p.bank.mintDecimals);
    }
  }

  lemma EarnedIs(amount: int, seconds: nat, rate: nat, decimals: nat)
    requires 0 <= amount
    ensures Earns(seconds * Truncated(amount * ONE, Pow10(decimals) * ONE) / YEAR * rate, amount, seconds, rate, decimals)
  {
    hide Pow10, Truncated;
    var scale := Pow10(decimals);
    var whole := Truncated(amount * ONE, scale * ONE);
    QuotientBounds(amount, scale * ONE);
    assert whole * (scale * ONE) == whole * scale * ONE;
    assert whole * scale <= amount < whole * scale + scale;
    Scale(0, whole, seconds);
    var y := seconds * whole / YEAR;
    DivisionBounds(seconds * whole, YEAR);
    Scale(0, y, rate);
    Scale(whole * scale, amount, seconds);
    Scale(amount, whole * scale + scale, seconds);
    Scale(y * YEAR, seconds * whole, scale);
    Scale(seconds * whole, y * YEAR + YEAR, scale);
    assert whole * scale * seconds == seconds * whole * scale;
    assert (whole * scale + scale) * seconds == seconds * whole * scale + seconds * scale;
    EarnedChain(seconds * amount, y, rate, scale, seconds);
  }

  lemma EarnedChain(x: int, y: int, rate: nat, scale: int, seconds: nat)
    requires y * YEAR * scale <= x <= (y * YEAR + YEAR) * scale + seconds * scale
    ensures y * rate * (YEAR * scale) <= x * rate
    ensures x * rate <= (y * rate + rate) * (YEAR * scale) + seconds * rate * scale
  {
    Scale(y * YEAR * scale, x, rate);
    Scale(x, (y * YEAR + YEAR) * scale + seconds * scale, rate);
    assert y * YEAR * scale * rate == y * rate * (YEAR * scale);
    assert ((y * YEAR + YEAR) * scale + seconds * scale) * rate
        == (y * rate + rate) * (YEAR * scale) + seconds * rate * scale;
  }

  /** Two periods earn no more apart than together, and at most one rate less. */
  lemma EarnedApart(s: int, t: int, whole: int, rate: nat)
    ensures var e := (n: int) => n * whole / YEAR * rate;
            e(s) + e(t) <= e(s + t) <= e(s) + e(t) + rate
  {
    var x, y, z := s * whole / YEAR, t * whole / YEAR, (s + t) * whole / YEAR;
    assert (s + t) * whole == s * whole + t * whole;
    DivisionBounds(s * whole, YEAR);
    DivisionBounds(t * whole, YEAR);
    DivisionBounds((s + t) * whole, YEAR);
    assert x + y <= z <= x + y + 1;
    Scale(x + y, z, rate);
    Scale(z, x + y + 1, rate);
    assert (x + y) * rate == x * rate + y * rate && (x + y + 1) * rate == x * rate + y * rate + rate;
  }

  /** Claims at `times` yield together what one claim at the last of them would,
      or up to one rate less for every claim but the last. */
  lemma {:induction false} ClaimsYield(p: Position, times: seq<nat>)
    requires p.Sound() && MIN_EMISSIONS_START_TIME <= p.balance.lastUpdate && times != [] && ClaimEach(p, times).Ok?
    requires p.EmissionsBase().Ok? && p.EmissionsBase().value.Some?
    ensures p.balance.lastUpdate <= times[|times| - 1]
    ensures var q := ClaimEach(p, times).value;
            var single := Min(Earned(p, times[|times| - 1] - p.balance.lastUpdate), p.bank.emissionsRemaining);
            && Claimed(p, q, Outstanding(q) - Outstanding(p), times[|times| - 1])
            && Outstanding(q) - Outstanding(p) <= single
            && single <= Outstanding(q) - Outstanding(p) + p.bank.emissionsRate * (|times| - 1)
    decreases |times|
  {
    hide Position.ClaimEmissions, Position.EmissionsBase, Position.Sound, Earned;
    var p1 := p.ClaimEmissions(times[0]).value;
    ClaimIs(p, times[0]);
    ClaimMoves(p, times[0]);
    if |times| == 1 {
      assert ClaimEach(p1, times[1..]) == Ok(p1);
    } else {
      ClaimsYield(p1, times[1..]);
      var last := times[|times| - 1];
      assert times[1..][|times[1..]| - 1] == last;
      EarnedNonNegative(p, last - times[0]);
      Apart(p, times[0] - p.balance.lastUpdate, last - times[0]);
      Capped(Earned(p, times[0] - p.balance.lastUpdate), Earned(p, last - times[0]),
             Earned(p, last - p.balance.lastUpdate), p.bank.emissionsRemaining, p.bank.emissionsRate);
      assert p.bank.emissionsRate * (|times| - 1) == p.bank.emissionsRate * (|times| - 2) + p.bank.emissionsRate;
    }
  }

  lemma EarnedNonNegative(p: Position, seconds: nat)
    requires p.Sound()
    ensures 0 <= Earned(p, seconds)
  {
    hide Position.EmissionsBase;
    EmissionsBaseNonNegative(p);
    var base := p.EmissionsBase();
    if base.Ok? && base.value.Some? && p.bank.mintDecimals < 24 {
      QuotientBounds(base.value.value, Pow10(p.bank.mintDecimals) * ONE);
      var whole := Truncated(base.value.value * ONE, Pow10(p.bank.mintDecimals) * ONE);
      Scale(0, whole, seconds);
      DivisionBounds(seconds * whole, YEAR);
      Scale(0, seconds * whole / YEAR, p.bank.emissionsRate);
    }
  }

  lemma Apart(p: Position, s: int, t: int)
    requires p.Sound()
    ensures Earned(p, s) + Earned(p, t) <= Earned(p, s + t) <= Earned(p, s) + Earned(p, t) + p.bank.emissionsRate
  {
    hide Position.EmissionsBase;
    var base := p.EmissionsBase();
    if base.Ok? && base.value.Some? && p.bank.mintDecimals < 24 {
      EarnedApart(s, t, Truncated(base.value.value * ONE, Pow10(p.bank.mintDecimals) * ONE), p.bank.emissionsRate);
    }
  }

  /** A cap spent in two parts. */
  lemma Capped(x: int, y: int, z: int, cap: int, slack: int)
    requires 0 <= slack && 0 <= y && x + y <= z <= x + y + slack
    ensures var first := Min(x, cap);
            first + Min(y, cap - first) <= Min(z, cap) <= first + Min(y, cap - first) + slack
  {
  }

  /** Claiming in parts never yields more than claiming once, and costs at most
      one yearly rate, in ulps, for every extra claim; what is not claimed stays
      with the bank. */
  lemma SplittingNeverGains(p: Position, times: seq<nat>)
    requires p.Sound() && MIN_EMISSIONS_START_TIME <= p.balance.lastUpdate && times != []
    requires ClaimEach(p, times).Ok? && p.ClaimEmissions(times[|times| - 1]).Ok?
    ensures var (q, s) := (ClaimEach(p, times).value, p.ClaimEmissions(times[|times| - 1]).value);
            && Outstanding(q) <= Outstanding(s) <= Outstanding(q) + p.bank.emissionsRate * (|times| - 1)
            && Outstanding(q) + q.bank.emissionsRemaining == Outstanding(s) + s.bank.emissionsRemaining
  {
    hide Position.Sound, Earned, ClaimEach, Position.ClaimEmissions, Position.EmissionsBase;
    var last := times[|times| - 1];
    BaseIsKnown(p, last);
    ClaimMoves(p, last);
    if p.EmissionsBase().value.Some? {
      ClaimsYield(p, times);
      ClaimIs(p, last);
    } else {
      NothingYields(p, times);
      Scale(0, |times| - 1, p.bank.emissionsRate);
    }
  }

  lemma BaseIsKnown(p: Position, now: nat)
    requires p.ClaimEmissions(now).Ok?
    ensures p.EmissionsBase().Ok?
    ensures p.EmissionsBase().value == None ==> p.ClaimEmissions(now).value == p.(balance := p.balance.(lastUpdate := now))
  {
  }

  lemma {:induction false} NothingYields(p: Position, times: seq<nat>)
    requires p.Sound() && ClaimEach(p, times).Ok? && p.EmissionsBase() == Ok(None)
    ensures Outstanding(ClaimEach(p, times).value) == Outstanding(p)
    ensures ClaimEach(p, times).value.bank == p.bank
    decreases |times|
  {
    if times != [] {
      NothingYields(p.ClaimEmissions(times[0]).value, times[1..]);
    }
  }
}
