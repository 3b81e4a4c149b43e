/** math.ceil, and what it bounds. */
module Ceilings {
  function Ceil(x: real): int { -(-x).Floor }

  /** ceil(t / d) intervals of length d cover t, and so do more. */
  lemma CeilCovers(t: real, d: real, n: int)
    requires d > 0.0 && n >= Ceil(t / d)
    ensures n as real * d >= t
  {
    var q := t / d;
    assert q <= n as real && t == q * d;
  }
}
