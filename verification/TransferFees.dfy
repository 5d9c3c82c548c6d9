/** Token-2022 transfer fees, and the amount to send so that a given amount
    arrives. */
module TransferFees {
  import opened Results
  import opened FixedPoint

  const U128_MAX: int := 0xFFFF_FFFF_FFFF_FFFF_FFFF_FFFF_FFFF_FFFF
  const ONE_IN_BASIS_POINTS: int := 10_000

  datatype TransferFee = TransferFee(basisPoints: nat, maximumFee: nat)

  const NO_FEE := TransferFee(0, 0)

  function CeilDiv(n: int, d: int): int
    requires d != 0
  {
    (n + d - 1) / d
  }

  /** `ceil_div` on u128. */
  function CheckedCeilDiv(n: int, d: int): Option<int> {
    if U128_MAX < n + d || n + d < 1 || d == 0 then None else Some(CeilDiv(n, d))
  }

  function AsU64(x: int): Option<nat> {
    if 0 <= x <= U64_MAX then Some(x) else None
  }

  function PreFeeAmount(fee: TransferFee, postFee: nat): Option<nat> {
    if fee.basisPoints == 0 then Some(postFee)
    else if postFee == 0 then Some(0)
    else if fee.basisPoints == ONE_IN_BASIS_POINTS then AsU64(fee.maximumFee + postFee)
    else
      var numerator := postFee * ONE_IN_BASIS_POINTS;
      if U128_MAX < numerator || ONE_IN_BASIS_POINTS < fee.basisPoints then None else
      match CheckedCeilDiv(numerator, ONE_IN_BASIS_POINTS - fee.basisPoints)
      case None => None
      case Some(raw) =>
        if raw < postFee then None
        else if fee.maximumFee <= raw - postFee then AsU64(postFee + fee.maximumFee)
        else AsU64(raw)
  }

  /** The fee the token program withholds from a transfer of `amount`. */
  function FeeOn(fee: TransferFee, amount: nat): nat {
    var raw := CeilDiv(amount * fee.basisPoints, ONE_IN_BASIS_POINTS);
    if raw < fee.maximumFee then raw else fee.maximumFee
  }

  /** What arrives of a transfer of `amount`. */
  function Received(fee: TransferFee, amount: nat): int {
    amount - FeeOn(fee, amount)
  }

  lemma ReceivedBounds(fee: TransferFee, amount: nat)
    requires fee.basisPoints <= ONE_IN_BASIS_POINTS
    ensures 0 <= Received(fee, amount) <= amount
  {
    Scale(fee.basisPoints, ONE_IN_BASIS_POINTS, amount);
    assert amount * fee.basisPoints <= amount * ONE_IN_BASIS_POINTS;
  }

  /** A fee is taken or capped: what arrives is the larger of the two results. */
  lemma ReceivedIs(fee: TransferFee, x: nat)
    ensures var kept := x * (ONE_IN_BASIS_POINTS - fee.basisPoints) / ONE_IN_BASIS_POINTS;
            Received(fee, x) == if kept <= x - fee.maximumFee then x - fee.maximumFee else kept
  {
    assert x * (ONE_IN_BASIS_POINTS - fee.basisPoints) == x * ONE_IN_BASIS_POINTS - x * fee.basisPoints;
  }

  /** Rounding up is the least multiple that is large enough. */
  lemma CeilDivBounds(n: int, d: int)
    requires 0 < d
    ensures n <= CeilDiv(n, d) * d < n + d
  {
    DivisionBounds(n + d - 1, d);
  }

  /** `raw` is the least amount of which `postFee` is kept when no cap applies. */
  lemma LeastUncapped(keep: int, postFee: nat, raw: int, x: nat)
    requires 0 < keep <= ONE_IN_BASIS_POINTS
    requires postFee * ONE_IN_BASIS_POINTS <= raw * keep < postFee * ONE_IN_BASIS_POINTS + keep
    ensures postFee <= raw
    ensures x * keep / ONE_IN_BASIS_POINTS < postFee <==> x < raw
    ensures x == raw ==> x * keep / ONE_IN_BASIS_POINTS == postFee
  {
    Scale(keep, ONE_IN_BASIS_POINTS, postFee);
    Cancel(postFee, raw + 1, keep);
    if x < raw {
      Scale(x, raw - 1, keep);
    } else {
      Scale(raw, x, keep);
    }
  }

  /** The amount computed is the least that delivers `postFee`, and nothing less
      delivers it or more. */
  lemma PreFeeIsLeast(fee: TransferFee, postFee: nat)
    requires fee.basisPoints <= 0xFFFF && postFee <= U64_MAX
    requires PreFeeAmount(fee, postFee).Some?
    ensures Received(fee, PreFeeAmount(fee, postFee).value) == postFee
    ensures forall x: nat :: x < PreFeeAmount(fee, postFee).value ==> Received(fee, x) < postFee
  {
    var pre := PreFeeAmount(fee, postFee).value;
    var keep := ONE_IN_BASIS_POINTS - fee.basisPoints;
    ReceivedIs(fee, pre);
    if fee.basisPoints != 0 && postFee != 0 && keep != 0 {
      CeilDivBounds(postFee * ONE_IN_BASIS_POINTS, keep);
      LeastUncapped(keep, postFee, CeilDiv(postFee * ONE_IN_BASIS_POINTS, keep), pre);
    }
    forall x: nat | x < pre
      ensures Received(fee, x) < postFee
    {
      ReceivedIs(fee, x);
      if fee.basisPoints != 0 && postFee != 0 && keep != 0 {
        CeilDivBounds(postFee * ONE_IN_BASIS_POINTS, keep);
        LeastUncapped(keep, postFee, CeilDiv(postFee * ONE_IN_BASIS_POINTS, keep), x);
      }
    }
  }

  /** For every fee rate up to 100% an amount is computed exactly when some
      64-bit amount delivers `postFee`. */
  lemma PreFeeExists(fee: TransferFee, postFee: nat, x: nat)
    requires fee.basisPoints <= ONE_IN_BASIS_POINTS && fee.maximumFee <= U64_MAX
    requires postFee <= U64_MAX && x <= U64_MAX && Received(fee, x) == postFee
    ensures PreFeeAmount(fee, postFee).Some? && PreFeeAmount(fee, postFee).value <= x
  {
    var keep := ONE_IN_BASIS_POINTS - fee.basisPoints;
    ReceivedIs(fee, x);
    if fee.basisPoints != 0 && postFee != 0 && keep != 0 {
      CeilDivBounds(postFee * ONE_IN_BASIS_POINTS, keep);
      LeastUncapped(keep, postFee, CeilDiv(postFee * ONE_IN_BASIS_POINTS, keep), x);
    }
  }
}
