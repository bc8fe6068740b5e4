/** Aggregates over a list of signed errors, with real numbers standing for the
    double-precision values of the array library, and the order relations that always
    hold between the mean error, the mean absolute error, the mean squared error and the
    largest absolute error. */
module Statistics {

  function Abs(x: real): (r: real)
    ensures r >= 0.0 && (r == x || r == -x)
  {
    if x < 0.0 then -x else x
  }

  function Square(x: real): (r: real)
    ensures r >= 0.0
  {
    x * x
  }

  function Sum(s: seq<real>): real {
    if |s| == 0 then 0.0 else s[0] + Sum(s[1..])
  }

  function SumSquares(s: seq<real>): (r: real)
    ensures r >= 0.0
  {
    if |s| == 0 then 0.0 else Square(s[0]) + SumSquares(s[1..])
  }

  /** `m` is the mean of `n` values summing to `total`: counted `n` times it gives the total. */
  predicate IsMeanOf(m: real, total: real, n: real) {
    m * n == total
  }

  /** `np.mean(s)`: the value that, counted once per element, gives the sum. */
  function Mean(s: seq<real>): (r: real)
    requires |s| > 0
    ensures IsMeanOf(r, Sum(s), |s| as real)
  {
    Sum(s) / |s| as real
  }

  /** `np.mean(s**2)`: non-negative, and counted once per element it gives the sum of
      squares. */
  function MeanSquare(s: seq<real>): (r: real)
    requires |s| > 0
    ensures r >= 0.0
    ensures IsMeanOf(r, SumSquares(s), |s| as real)
  {
    SumSquares(s) / |s| as real
  }

  /** `np.abs(s)`: the element-wise magnitude. */
  function Magnitudes(s: seq<real>): (m: seq<real>)
    ensures |m| == |s|
    ensures forall i :: 0 <= i < |s| ==> m[i] == Abs(s[i])
  {
    seq(|s|, i requires 0 <= i < |s| => Abs(s[i]))
  }

  /** `np.max(s)`: the largest element of a non-empty list, attained by some element. */
  function Max(s: seq<real>): (m: real)
    requires |s| > 0
    ensures forall i :: 0 <= i < |s| ==> s[i] <= m
    ensures exists i :: 0 <= i < |s| && m == s[i]
  {
    if |s| == 1 then s[0]
    else
      var rest := Max(s[1..]);
      assert forall i :: 1 <= i < |s| ==> s[i] == s[1..][i - 1];
      if s[0] >= rest then s[0] else rest
  }

  /** The order relations between the four statistics of a non-empty error list:
      the mean absolute error lies between 0 and the largest absolute error and bounds the
      mean error in magnitude, and the mean squared error lies between the squares of the
      mean absolute error and of the largest absolute error. */
  predicate StatsOrdered(meanError: real, meanAbs: real, meanSquare: real, maxAbs: real) {
    && 0.0 <= meanAbs <= maxAbs
    && -meanAbs <= meanError <= meanAbs
    && meanAbs * meanAbs <= meanSquare <= maxAbs * maxAbs
  }

  /** The statistics of every non-empty list of errors are ordered. */
  lemma StatisticsOrdered(e: seq<real>)
    requires |e| > 0
    ensures StatsOrdered(Mean(e), Mean(Magnitudes(e)), MeanSquare(e), Max(Magnitudes(e)))
  {
    var n := |e| as real;
    var mags := Magnitudes(e);
    var m := Max(mags);
    SumBoundedBySumOfMagnitudes(e);
    SumAtMostCountTimesBound(mags, m, n);
    SquaredSumAtMostCountTimesSumSquares(mags, n);
    SumSquaresOfMagnitudes(e);
    assert forall i :: 0 <= i < |e| ==> Abs(e[i]) <= m by {
      forall i | 0 <= i < |e| ensures Abs(e[i]) <= m {
        assert mags[i] == Abs(e[i]);
      }
    }
    SumSquaresAtMostCountTimesBound(e, m, n);
    OrderingFromSums(Sum(e), Sum(mags), SumSquares(mags), SumSquares(e), m, n);
  }

  /** Named relations between plain numbers. They say nothing a plain inequality would
      not; they exist to keep the proofs fast. The sums' lemmas state their conclusions
      through them, so that the products inside stay hidden from the solver in the proofs
      that only pass the facts along, where bare products make it search without end. */
  predicate AtMostTimes(x: real, n: real, m: real) {
    x <= n * m
  }

  predicate CauchyBound(s1: real, s2: real, n: real) {
    s1 * s1 <= n * s2
  }

  predicate IsExpansion(d: real, s1: real, s2: real, n: real, c: real) {
    d == s2 - 2.0 * c * s1 + n * (c * c)
  }

  /** Triangle inequality: the magnitude of a sum is at most the sum of magnitudes. */
  lemma {:induction false} SumBoundedBySumOfMagnitudes(s: seq<real>)
    ensures -Sum(Magnitudes(s)) <= Sum(s) <= Sum(Magnitudes(s))
  {
    if |s| > 0 {
      SumBoundedBySumOfMagnitudes(s[1..]);
      assert Magnitudes(s)[1..] == Magnitudes(s[1..]);
    }
  }

  /** A common upper bound on the elements bounds the sum by `n` times itself. */
  lemma {:induction false} SumAtMostCountTimesBound(s: seq<real>, m: real, n: real)
    requires n == |s| as real
    requires forall i :: 0 <= i < |s| ==> s[i] <= m
    ensures AtMostTimes(Sum(s), n, m)
  {
    if |s| > 0 {
      assert forall i :: 0 <= i < |s| - 1 ==> s[1..][i] == s[i + 1];
      SumAtMostCountTimesBound(s[1..], m, n - 1.0);
      AtMostTimesStep(s[0], Sum(s[1..]), n - 1.0, m, Sum(s), n);
    }
  }

  /** A common bound on the magnitudes bounds the sum of squares by `n` times its square. */
  lemma {:induction false} SumSquaresAtMostCountTimesBound(s: seq<real>, m: real, n: real)
    requires n == |s| as real
    requires forall i :: 0 <= i < |s| ==> Abs(s[i]) <= m
    ensures AtMostTimes(SumSquares(s), n, Square(m))
  {
    if |s| > 0 {
      assert forall i :: 0 <= i < |s| - 1 ==> s[1..][i] == s[i + 1];
      SumSquaresAtMostCountTimesBound(s[1..], m, n - 1.0);
      SquareAtMostBoundSquared(s[0], m);
      AtMostTimesStep(Square(s[0]), SumSquares(s[1..]), n - 1.0, Square(m), SumSquares(s), n);
    }
  }

  /** Squaring forgets the sign: the magnitudes have the same sum of squares. */
  lemma {:induction false} SumSquaresOfMagnitudes(s: seq<real>)
    ensures SumSquares(Magnitudes(s)) == SumSquares(s)
  {
    if |s| > 0 {
      SumSquaresOfMagnitudes(s[1..]);
      assert Magnitudes(s)[1..] == Magnitudes(s[1..]);
      SquareOfAbs(s[0]);
    }
  }

  /** Sum of squared deviations from a centre `c`. */
  function SumSquaredDeviation(s: seq<real>, c: real): (r: real)
    ensures r >= 0.0
  {
    if |s| == 0 then 0.0 else Square(s[0] - c) + SumSquaredDeviation(s[1..], c)
  }

  /** Expanding the squares: sum (x - c)^2 == sum x^2 - 2c sum x + n c^2, where the real
      `n` is the length of the list. */
  lemma {:induction false} SumSquaredDeviationExpands(s: seq<real>, c: real, n: real)
    requires n == |s| as real
    ensures IsExpansion(SumSquaredDeviation(s, c), Sum(s), SumSquares(s), n, c)
  {
    if |s| > 0 {
      SumSquaredDeviationExpands(s[1..], c, n - 1.0);
      ExpansionStep(s[0], c, Sum(s[1..]), SumSquares(s[1..]), n - 1.0,
                    SumSquaredDeviation(s[1..], c),
                    Sum(s), SumSquares(s), n, SumSquaredDeviation(s, c));
    }
  }

  /** Cauchy-Schwarz against the all-ones vector: (sum x)^2 <= n * sum x^2. */
  lemma {:induction false} SquaredSumAtMostCountTimesSumSquares(s: seq<real>, n: real)
    requires n == |s| as real
    ensures CauchyBound(Sum(s), SumSquares(s), n)
  {
    if |s| > 0 {
      var t := s[1..];
      SquaredSumAtMostCountTimesSumSquares(t, n - 1.0);
      SumSquaredDeviationExpands(t, s[0], n - 1.0);
      CauchyStep(s[0], Sum(t), SumSquares(t), n - 1.0, SumSquaredDeviation(t, s[0]),
                 Sum(s), SumSquares(s), n);
    }
  }

  /** Prepending `x <= m` to a list whose sum `s1` is at most `n*m` gives a list of
      length `k` whose sum `w` is at most `k*m`. */
  lemma AtMostTimesStep(x: real, s1: real, n: real, m: real, w: real, k: real)
    requires AtMostTimes(s1, n, m) && x <= m
    requires w == x + s1 && k == n + 1.0
    ensures AtMostTimes(w, k, m)
  {
    assert k * m == n * m + m;
  }

  /** The inductive step of `SumSquaredDeviationExpands`, over plain numbers: prepending
      `a` to a list with sum `s1`, square sum `s2`, length `n` and deviation sum `d`
      gives sum `w1`, square sum `w2`, length `m` and deviation sum `e`. */
  lemma ExpansionStep(a: real, c: real, s1: real, s2: real, n: real, d: real,
                      w1: real, w2: real, m: real, e: real)
    requires IsExpansion(d, s1, s2, n, c)
    requires w1 == a + s1 && w2 == Square(a) + s2 && m == n + 1.0 && e == Square(a - c) + d
    ensures IsExpansion(e, w1, w2, m, c)
  {
    assert (a - c) * (a - c) == a * a - 2.0 * c * a + c * c;
    assert (n + 1.0) * (c * c) == n * (c * c) + c * c;
    assert 2.0 * c * (a + s1) == 2.0 * c * a + 2.0 * c * s1;
  }

  /** The inductive step of `SquaredSumAtMostCountTimesSumSquares`, over plain numbers:
      the tail's deviation sum `d` from the new head `x` is non-negative, which is exactly
      what the bound needs to survive prepending `x`. */
  lemma CauchyStep(x: real, s1: real, s2: real, n: real, d: real, w1: real, w2: real, m: real)
    requires CauchyBound(s1, s2, n)
    requires d >= 0.0 && IsExpansion(d, s1, s2, n, x)
    requires w1 == x + s1 && w2 == Square(x) + s2 && m == n + 1.0
    ensures CauchyBound(w1, w2, m)
  {
    assert w1 * w1 == x * x + 2.0 * x * s1 + s1 * s1;
    assert m * w2 == n * (x * x) + n * s2 + x * x + s2;
  }

  /** Dividing the sum-level facts through by the count `n > 0`: `s` is the sum of the
      errors, `a` the sum of their magnitudes, `q` (equal to `q'`) the sum of their squares
      and `m` the largest magnitude. */
  lemma OrderingFromSums(s: real, a: real, q': real, q: real, m: real, n: real)
    requires n >= 1.0
    requires -a <= s <= a
    requires AtMostTimes(a, n, m)
    requires CauchyBound(a, q', n) && q' == q
    requires AtMostTimes(q, n, Square(m))
    ensures StatsOrdered(s / n, a / n, q / n, m)
  {
    DivideBothSides(-a, s, n);
    DivideBothSides(s, a, n);
    DivideBothSides(0.0, a, n);
    AtMostTimesDivided(a, n, m);
    AtMostTimesDivided(q, n, Square(m));
    MeanSquaredAtMostMeanSquare(a, q, n);
  }

  /** Cauchy-Schwarz divided through by `n > 0`: the square of the mean is at most the
      mean of the squares. */
  lemma MeanSquaredAtMostMeanSquare(s1: real, s2: real, n: real)
    requires n > 0.0
    requires CauchyBound(s1, s2, n)
    ensures (s1 / n) * (s1 / n) <= s2 / n
  {
    var c := s1 / n;
    assert s1 == c * n;
    assert s1 * s1 == n * (n * (c * c));
    assert n * (c * c) <= s2;
    DivideBothSides(n * (c * c), s2, n);
    assert (n * (c * c)) / n == c * c;
  }

  lemma AtMostTimesDivided(x: real, n: real, m: real)
    requires n > 0.0 && AtMostTimes(x, n, m)
    ensures x / n <= m
  {
    DivideBothSides(x, n * m, n);
    assert (n * m) / n == m;
  }

  lemma SquareOfAbs(x: real)
    ensures Square(Abs(x)) == Square(x)
  {
  }

  lemma SquareAtMostBoundSquared(x: real, m: real)
    requires Abs(x) <= m
    ensures Square(x) <= Square(m)
  {
    var a := Abs(x);
    SquareOfAbs(x);
    assert m * m - a * a == (m - a) * (m + a);
    assert (m - a) * (m + a) >= 0.0;
  }

  lemma SquareStrictlyMonotone(x: real, y: real)
    requires 0.0 <= x < y
    ensures x * x < y * y
  {
    var d := y - x;
    assert y * y == x * x + 2.0 * x * d + d * d;
    assert d * d > 0.0;
    assert x * d >= 0.0;
  }

  lemma DivideBothSides(x: real, y: real, n: real)
    requires n > 0.0 && x <= y
    ensures x / n <= y / n
  {
  }
}
