/**
  The arithmetic behind the dashboard's summary cards: `Math.round` of a
  ratio of non-negative integers, and the rounded average of a list.
 */
module Numbers {
  import opened Lists

  /** `Math.round(p / q)` for `p >= 0` and `q > 0`: the integer nearest to
      p/q, a tie going up. Stated without division: r - 1/2 <= p/q < r + 1/2. */
  function RoundDiv(p: nat, q: nat): (r: nat)
    requires q > 0
    ensures q * (2 * r) <= 2 * p + q < q * (2 * r + 2)
  {
    RoundDivBounds(p, q);
    (2 * p + q) / (2 * q)
  }

  lemma RoundDivBounds(p: nat, q: nat)
    requires q > 0
    ensures var r := (2 * p + q) / (2 * q); q * (2 * r) <= 2 * p + q < q * (2 * r + 2)
  {
    var x, d := 2 * p + q, 2 * q;
    var r, m := x / d, x % d;
    assert x == d * r + m && 0 <= m < d;
    assert q * (2 * r) == d * r;
    assert q * (2 * r + 2) == d * r + d;
  }

  /** Rounding a ratio that lies between two integers stays between them. */
  lemma RoundDivBetween(p: nat, q: nat, lo: int, hi: int)
    requires q > 0
    requires q * lo <= p <= q * hi
    ensures lo <= RoundDiv(p, q) <= hi
  {
    var r := RoundDiv(p, q);
    // q * (2 * lo) + q <= 2 * p + q < q * (2 * r + 2), so lo < r + 1
    assert q * (2 * lo) < q * (2 * r + 2);
    LessByPositiveFactor(q, 2 * lo, 2 * r + 2);
    // q * (2 * r) <= 2 * p + q <= q * (2 * hi) + q < q * (2 * hi + 2), so r < hi + 1
    assert q * (2 * r) < q * (2 * hi + 2);
    LessByPositiveFactor(q, 2 * r, 2 * hi + 2);
  }

  lemma LessByPositiveFactor(q: int, a: int, b: int)
    requires q > 0
    requires q * a < q * b
    ensures a < b
  {
    assert q * (b - a) == q * b - q * a > 0;
  }

  /** `Math.round(xs.reduce((sum, x) => sum + x, 0) / xs.length)`. */
  function Average(xs: seq<nat>): (r: nat)
    requires |xs| > 0
    ensures |xs| * (2 * r) <= 2 * Sum(xs) + |xs| < |xs| * (2 * r + 2)
  {
    RoundDiv(Sum(xs), |xs|)
  }

  /** A sum of values between `lo` and `hi` lies between `|xs| * lo` and `|xs| * hi`. */
  lemma {:induction false} SumBetween(xs: seq<int>, lo: int, hi: int)
    requires forall i :: 0 <= i < |xs| ==> lo <= xs[i] <= hi
    ensures |xs| * lo <= Sum(xs) <= |xs| * hi
    decreases |xs|
  {
    if xs != [] {
      SumBetween(xs[1..], lo, hi);
      MulSucc(|xs[1..]|, lo);
      MulSucc(|xs[1..]|, hi);
    }
  }

  lemma MulSucc(n: int, k: int)
    ensures (n + 1) * k == k + n * k
  {
  }

  /** The rounded average of values between `lo` and `hi` is between them too;
      in particular it lies between the list's minimum and maximum. */
  lemma AverageBetween(xs: seq<nat>, lo: int, hi: int)
    requires |xs| > 0
    requires forall i :: 0 <= i < |xs| ==> lo <= xs[i] <= hi
    ensures lo <= Average(xs) <= hi
  {
    SumBetween(xs, lo, hi);
    RoundDivBetween(Sum(xs), |xs|, lo, hi);
  }

  /** When every value is `k` times its weight, the rounded ratio is exactly `k`. */
  lemma RoundDivExact(p: nat, q: nat, k: nat)
    requires q > 0 && p == k * q
    ensures RoundDiv(p, q) == k
  {
    RoundDivBetween(p, q, k, k);
  }
}
