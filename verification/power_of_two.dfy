/** Powers of two and their exact base-2 logarithm, used to state the shape
    of the organization table (whose counts are written as `1 << k`). */
module PowerOfTwo {
  import opened Wrappers

  /** 2^k, the value of the shift `1 << k`. */
  function Pow2(k: nat): (r: int)
    ensures r >= 1
    ensures k >= 1 ==> r % 2 == 0
  {
    if k == 0 then 1 else 2 * Pow2(k - 1)
  }

  /** The exponent k with 2^k == n, or None when n is not a power of two. */
  function ExactLog2(n: int): (r: Option<nat>)
    decreases if n > 0 then n else 0
    ensures r.Some? ==> Pow2(r.value) == n
  {
    if n <= 0 then None
    else if n == 1 then Some(0)
    else if n % 2 == 1 then None
    else match ExactLog2(n / 2)
      case None => None
      case Some(k) => Some(k + 1)
  }

  /** ExactLog2 finds the exponent of every power of two: together with its
      own postcondition, n is a power of two exactly when ExactLog2(n) is Some. */
  lemma {:induction false} ExactLog2OfPow2(k: nat)
    ensures ExactLog2(Pow2(k)) == Some(k)
  {
    if k > 0 {
      ExactLog2OfPow2(k - 1);
      assert Pow2(k) / 2 == Pow2(k - 1);
    }
  }

}
