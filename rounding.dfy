/** JavaScript's `Math.round(s / n)` for an integer numerator and a positive
    integer count, computed exactly: the integer nearest to `s / n`, with
    halves rounded up (towards positive infinity). */
module Rounding {

  /** `Math.round(s / n)` for `n > 0`. The two-sided bound is the definition of
      rounding to nearest with ties up: `r - 1/2 <= s/n < r + 1/2`. */
  function RoundDiv(s: int, n: int): (r: int)
    requires n > 0
    ensures 2 * n * r - n <= 2 * s < 2 * n * r + n
  {
    var d := 2 * n;
    var q := (2 * s + n) / d;
    assert 2 * s + n == d * q + (2 * s + n) % d;
    q
  }

  /** At most one integer lies within half a unit (ties up) of `s / n`. */
  lemma RoundDivUnique(s: int, n: int, r: int)
    requires n > 0
    requires 2 * n * r - n <= 2 * s < 2 * n * r + n
    ensures r == RoundDiv(s, n)
  {
    var q := RoundDiv(s, n);
    if r < q {
      MulMonotone(n, r + 1, q);
    } else if r > q {
      MulMonotone(n, q + 1, r);
    }
  }

  /** Multiplying by a positive number keeps the order. */
  lemma MulMonotone(n: int, a: int, b: int)
    requires n > 0 && a <= b
    ensures n * a <= n * b
  {
    assert n * b - n * a == n * (b - a);
  }

  /** `count > 0 ? Math.round(total / count) : 0` with `count` the length of
      the collection. */
  function Average(total: int, count: nat): (r: int)
    ensures count == 0 ==> r == 0
    ensures count > 0 ==> 2 * count * r - count <= 2 * total < 2 * count * r + count
  {
    if count > 0 then RoundDiv(total, count) else 0
  }

  /** If the total lies between `count * lo` and `count * hi`, so does the rounded average
      between `lo` and `hi`. */
  lemma AverageBounds(total: int, count: nat, lo: int, hi: int)
    requires count > 0
    requires count * lo <= total <= count * hi
    ensures lo <= Average(total, count) <= hi
  {
    var r := Average(total, count);
    if r < lo {
      MulMonotone(2 * count, r + 1, lo);
    }
    if r > hi {
      MulMonotone(2 * count, hi + 1, r);
    }
  }

  /** The average of equal values is that value. */
  lemma AverageOfConstant(v: int, count: nat)
    requires count > 0
    ensures Average(count * v, count) == v
  {
    RoundDivUnique(count * v, count, v);
  }
}
