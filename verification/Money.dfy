/** Money in minor units, and the half-up rounding every fee in the system goes through. */
module Money {
  import opened Wrappers

  const BASIS_POINTS := 10_000

  datatype Error = NegativeAmount | InvalidBps

  /** Go's integer division: it truncates toward zero, unlike Dafny's. */
  function Quot(a: int, b: int): (q: int)
    requires b > 0
    ensures a >= 0 ==> q * b <= a < q * b + b
    ensures a < 0 ==> q * b - b < a <= q * b
  {
    if a >= 0 then a / b else -((-a) / b)
  }

  /** A quotient rounded the way the source does it: bump when twice the remainder reaches the divisor. */
  function HalfUp(product: int, divisor: int): (r: int)
    requires divisor > 0
  {
    var q := Quot(product, divisor);
    if (product - q * divisor) * 2 >= divisor then q + 1 else q
  }

  /** For a product that is not negative the result is the nearest integer, ties going up. */
  lemma HalfUpIsNearest(product: int, divisor: int)
    requires product >= 0 && divisor > 0
    ensures 2 * product - divisor < 2 * (HalfUp(product, divisor) * divisor) <= 2 * product + divisor
    ensures HalfUp(product, divisor) >= 0
  {
    assert (Quot(product, divisor) + 1) * divisor == Quot(product, divisor) * divisor + divisor;
  }

  lemma NextMultiple(a: int, b: int, d: int)
    requires a < b && d > 0
    ensures a * d + d <= b * d
  {
    var k := b - a - 1;
    assert k * d >= 0;
    assert b * d == (a + 1 + k) * d == a * d + d + k * d;
  }

  /** The nearest integer is unique, so any value meeting the bound is the rounded one. */
  lemma NearestIsUnique(product: int, divisor: int, v: int)
    requires product >= 0 && divisor > 0
    requires 2 * product - divisor < 2 * (v * divisor) <= 2 * product + divisor
    ensures v == HalfUp(product, divisor)
  {
    HalfUpIsNearest(product, divisor);
    var h := HalfUp(product, divisor);
    if h < v {
      NextMultiple(h, v, divisor);
    } else if v < h {
      NextMultiple(v, h, divisor);
    }
  }

  function FeeHalfUp(amount: int, bps: int): (r: Result<int, Error>) {
    if amount < 0 then Err(NegativeAmount)
    else if bps < 0 || bps > BASIS_POINTS then Err(InvalidBps)
    else Ok(HalfUp(amount * bps, BASIS_POINTS))
  }

  /** A fee never exceeds the amount, and it swallows the whole amount only when what would be
      left, `amount * (10000 - bps)` in basis-point units, is at most half a minor unit. */
  lemma FeeBounds(amount: int, bps: int)
    requires amount >= 0 && 0 <= bps <= BASIS_POINTS
    ensures FeeHalfUp(amount, bps).Ok?
    ensures var fee := FeeHalfUp(amount, bps).value;
            && 0 <= fee <= amount
            && (fee == amount <==> 2 * (amount * (BASIS_POINTS - bps)) <= BASIS_POINTS)
  {
    assert amount * bps >= 0;
    assert amount * (BASIS_POINTS - bps) == amount * BASIS_POINTS - amount * bps;
    assert amount * (BASIS_POINTS - bps) >= 0;
    HalfUpIsNearest(amount * bps, BASIS_POINTS);
  }
}
