/** Powers of two, and the arithmetic several modules share. */
module Powers {

  /** One above the largest int64. */
  const TWO_63: int := 0x8000_0000_0000_0000

  predicate Int64(x: int) {
    -TWO_63 <= x < TWO_63
  }

  function Pow2(n: nat): (p: nat)
    ensures p > 0
  {
    if n == 0 then 1 else 2 * Pow2(n - 1)
  }

  lemma SmallMultiple(k: int, p: int)
    requires p > 0 && -p < k * p < p
    ensures k == 0
  {
  }

  lemma OneMore(q: nat, divisor: int)
    ensures (q + 1) * divisor == q * divisor + divisor
  {
  }
}
