/**
 * Integer stand-in for `Math.round(p / q)` on the page's ratios.
 *
 * `Math.round(x)` is `floor(x + 1/2)`. For a positive divisor `q` this is
 * `floor((2p + q) / (2q))`, which Dafny's division computes exactly, since
 * Euclidean division by a positive number is floor division.
 */
module Rounding {

  /** The integer nearest to `p / q`, halves rounded up, as `Math.round` does. */
  function RoundDiv(p: int, q: int): (r: int)
    requires q > 0
    ensures q * (2 * r - 1) <= 2 * p < q * (2 * r + 1)
  {
    var r := (2 * p + q) / (2 * q);
    var m := (2 * p + q) % (2 * q);
    assert 2 * p + q == 2 * q * r + m && 0 <= m < 2 * q;
    assert q * (2 * r - 1) == 2 * q * r - q;
    assert q * (2 * r + 1) == 2 * q * r + q;
    r
  }

  lemma MulMonotone(q: int, a: int, b: int)
    requires q > 0 && a <= b
    ensures q * a <= q * b
  {
    assert q * b - q * a == q * (b - a);
  }

  /** Rounding `p / q` stays inside any integer bounds that `p / q` itself respects. */
  lemma RoundDivBounds(p: int, q: int, lo: int, hi: int)
    requires q > 0
    requires q * lo <= p <= q * hi
    ensures lo <= RoundDiv(p, q) <= hi
  {
    var r := RoundDiv(p, q);
    if r > hi {
      MulMonotone(q, 2 * hi + 1, 2 * r - 1);
      assert false;
    }
    if r < lo {
      MulMonotone(q, 2 * r + 1, 2 * lo - 1);
      assert false;
    }
  }

  /** The rounded value is the only integer within one half of `p / q` (ties going up). */
  lemma RoundDivUnique(p: int, q: int, r: int)
    requires q > 0
    requires q * (2 * r - 1) <= 2 * p < q * (2 * r + 1)
    ensures RoundDiv(p, q) == r
  {
    var r' := RoundDiv(p, q);
    if r' > r {
      MulMonotone(q, 2 * r + 1, 2 * r' - 1);
      assert false;
    }
    if r' < r {
      MulMonotone(q, 2 * r' + 1, 2 * r - 1);
      assert false;
    }
  }
}
