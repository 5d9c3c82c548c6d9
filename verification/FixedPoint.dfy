/** The I80F48 fixed-point number: a 128-bit two's complement integer counting
    units of 2^-48 ("ulps").  A number is modelled by that integer, unbounded,
    and every operation that the program checks for overflow checks the range. */
module FixedPoint {
  import opened Results

  const ONE: int := 0x1_0000_0000_0000
  const MAX: int := 0x7FFF_FFFF_FFFF_FFFF_FFFF_FFFF_FFFF_FFFF
  const U64_MAX: int := 0xFFFF_FFFF_FFFF_FFFF

  predicate InRange(x: int) {
    -MAX - 1 <= x <= MAX
  }

  function Checked(x: int): Result<int> {
    if InRange(x) then Ok(x) else Err(MathError)
  }

  /** The operators `+` and `-`, and `from_num`, panic when they overflow. */
  function Unchecked(x: int): Result<int> {
    if InRange(x) then Ok(x) else Err(Panic)
  }

  /** The product, rounded down. */
  function Product(a: int, b: int): int {
    a * b / ONE
  }

  /** Integer division, rounded towards zero. */
  function Truncated(n: int, d: int): int
    requires d != 0
  {
    if 0 <= n then n / d else -((-n) / d)
  }

  function CheckedMul(a: int, b: int): Result<int> {
    Checked(Product(a, b))
  }

  function CheckedDiv(a: int, b: int): Result<int> {
    if b == 0 then Err(MathError) else Checked(Truncated(a * ONE, b))
  }

  function Min(a: int, b: int): int {
    if a <= b then a else b
  }

  function Max(a: int, b: int): int {
    if a >= b then a else b
  }

  function Abs(a: int): int {
    if a < 0 then -a else a
  }

  function Floor(a: int): int {
    a / ONE * ONE
  }

  function Ceil(a: int): int {
    -Floor(-a)
  }

  /** `checked_to_num::<u64>`: the integer part, if it is a u64. */
  function ToU64(a: int): Result<nat> {
    if 0 <= a / ONE <= U64_MAX then Ok(a / ONE) else Err(MathError)
  }

  /** `m` is the product of `a` and `b`, rounded down. */
  ghost predicate IsProduct(a: int, b: int, m: int) {
    m * ONE <= a * b < m * ONE + ONE
  }

  /** `q` is the quotient of `a` and `b`, rounded down, `b` being positive. */
  ghost predicate IsQuotient(a: int, b: int, q: int) {
    q * b <= a * ONE < q * b + b
  }

  lemma ProductBounds(a: int, b: int)
    ensures IsProduct(a, b, Product(a, b))
    ensures 0 <= a && 0 <= b ==> 0 <= Product(a, b)
  {
    if 0 <= a && 0 <= b {
      assert 0 <= a * b;
    }
  }

  lemma DivisionBounds(n: int, d: int)
    requires 0 < d
    ensures n / d * d <= n < n / d * d + d
  {
    assert n == d * (n / d) + n % d;
  }

  lemma QuotientBounds(a: int, b: int)
    requires 0 <= a && 0 < b
    ensures IsQuotient(a, b, Truncated(a * ONE, b))
    ensures 0 <= Truncated(a * ONE, b)
  {
    var q := Truncated(a * ONE, b);
    DivisionBounds(a * ONE, b);
    if q < 0 {
      Scale(q, -1, b);
    }
  }

  /** Multiplying by a number that is not negative keeps the order. */
  lemma Scale(a: int, b: int, k: int)
    requires a <= b && 0 <= k
    ensures a * k <= b * k
  {
    assert 0 <= (b - a) * k;
  }

  /** Cancelling a positive factor keeps the order. */
  lemma Cancel(a: int, b: int, k: int)
    requires 0 < k && a * k < b * k
    ensures a < b
  {
    if b <= a {
      Scale(b, a, k);
    }
  }

  /** The only quotient is the one computed. */
  lemma DivisionIs(n: int, d: int, q: int)
    requires 0 < d && q * d <= n < q * d + d
    ensures n / d == q
  {
    DivisionBounds(n, d);
    var p := n / d;
    Cancel(q, p + 1, d);
    Cancel(p, q + 1, d);
  }
}
