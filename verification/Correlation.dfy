/** Sample correlation and the Cauchy-Schwarz bound that keeps it in range (backtest/src/portfolio_risk.rs). */
module Correlation {
  import opened Reals

  const MIN_PERIODS: nat := 20
  const MIN_DENOMINATOR := 0.0000000001

  function Dot(xs: seq<real>, ys: seq<real>): real
    requires |xs| == |ys|
  {
    if xs == [] then 0.0
    else
      var n := |xs| - 1;
      Dot(xs[..n], ys[..n]) + Times(xs[n], ys[n])
  }

  function Deviations(xs: seq<real>): (ds: seq<real>)
    requires xs != []
    ensures |ds| == |xs|
  {
    var mean := Mean(xs);
    seq(|xs|, i requires 0 <= i < |xs| => xs[i] - mean)
  }

  /** The latest `n` returns, newest first. */
  function Newest(xs: seq<real>, n: nat): (ys: seq<real>)
    requires n <= |xs|
    ensures |ys| == n
  {
    seq(n, i requires 0 <= i < n => xs[|xs| - 1 - i])
  }

  /** Correlation of two aligned samples, undefined when either hardly varies. */
  function SampleCorrelation(root: real -> real, xs: seq<real>, ys: seq<real>): Option<real>
    requires |xs| == |ys| > 0
  {
    var dx, dy := Deviations(xs), Deviations(ys);
    var denominator := root(Times(Dot(dx, dx), Dot(dy, dy)));
    if denominator > MIN_DENOMINATOR then Some(Dot(dx, dy) / denominator) else None
  }

  /** Correlation over the shorter of the two histories. */
  function HistoryCorrelation(root: real -> real, xs: seq<real>, ys: seq<real>): Option<real> {
    var n := if |xs| <= |ys| then |xs| else |ys|;
    if n < MIN_PERIODS then None else SampleCorrelation(root, Newest(xs, n), Newest(ys, n))
  }

  // ---- Cauchy-Schwarz ----

  lemma SquareIsNonNegative(x: real)
    ensures Times(x, x) >= 0.0
  {}

  lemma {:induction false} DotOfSelf(xs: seq<real>)
    ensures Dot(xs, xs) >= 0.0
  {
    hide Times;
    if xs != [] {
      DotOfSelf(xs[..|xs| - 1]);
      SquareIsNonNegative(xs[|xs| - 1]);
    }
  }

  lemma {:induction false} DotIsSymmetric(xs: seq<real>, ys: seq<real>)
    requires |xs| == |ys|
    ensures Dot(xs, ys) == Dot(ys, xs)
  {
    if xs != [] {
      var n := |xs| - 1;
      DotIsSymmetric(xs[..n], ys[..n]);
    }
  }

  /** The mixed term of one induction step, where `a`, `b`, `c` are the squares and the product summed so far. */
  lemma MixedTerm(a: real, b: real, c: real, x: real, y: real)
    requires a >= 0.0 && b >= 0.0 && c * c <= a * b
    ensures 2.0 * c * x * y <= a * (y * y) + b * (x * x)
  {
    var gap := a * (y * y) + b * (x * x) - 2.0 * c * x * y;
    if a > 0.0 {
      var square := a * y - c * x;
      assert a * gap == square * square + (x * x) * (a * b - c * c);
      ProductOfNonNegatives(x * x, a * b - c * c);
      CancelFactor(a, 0.0, gap);
    } else {
      assert a * b == 0.0;
      SquareOrder(c, 0.0);
      assert c == 0.0;
      ProductOfNonNegatives(b, x * x);
    }
  }

  lemma CauchyStep(a: real, b: real, c: real, x: real, y: real)
    requires a >= 0.0 && b >= 0.0 && Times(c, c) <= Times(a, b)
    ensures Times(c + Times(x, y), c + Times(x, y)) <= Times(a + Times(x, x), b + Times(y, y))
  {
    MixedTerm(a, b, c, x, y);
    assert (c + x * y) * (c + x * y) == c * c + 2.0 * c * x * y + (x * x) * (y * y);
    assert (a + x * x) * (b + y * y) == a * b + a * (y * y) + b * (x * x) + (x * x) * (y * y);
  }

  /** The squared covariance never exceeds the product of the variances. */
  lemma {:induction false} CauchySchwarz(xs: seq<real>, ys: seq<real>)
    requires |xs| == |ys|
    ensures Times(Dot(xs, ys), Dot(xs, ys)) <= Times(Dot(xs, xs), Dot(ys, ys))
  {
    if xs != [] {
      hide Times;
      var n := |xs| - 1;
      CauchySchwarz(xs[..n], ys[..n]);
      DotOfSelf(xs[..n]);
      DotOfSelf(ys[..n]);
      CauchyStep(Dot(xs[..n], xs[..n]), Dot(ys[..n], ys[..n]), Dot(xs[..n], ys[..n]), xs[n], ys[n]);
    }
  }

  lemma QuotientOfBounded(c: real, d: real)
    requires d > 0.0 && Times(c, c) <= Times(d, d)
    ensures -1.0 <= c / d <= 1.0
  {
    SquareOrder(c, d);
    QuotientTimesDivisor(c, d);
    CancelFactor(d, c / d, 1.0);
    CancelFactor(d, -1.0, c / d);
  }

  /** Every correlation that is defined lies in [-1, 1], whichever order the assets are named in. */
  lemma CorrelationInRange(root: real -> real, xs: seq<real>, ys: seq<real>)
    requires IsRoot(root)
    ensures HistoryCorrelation(root, xs, ys).Some? ==> -1.0 <= HistoryCorrelation(root, xs, ys).value <= 1.0
    ensures HistoryCorrelation(root, xs, ys) == HistoryCorrelation(root, ys, xs)
  {
    var n := if |xs| <= |ys| then |xs| else |ys|;
    if n >= MIN_PERIODS {
      SampleInRange(root, Newest(xs, n), Newest(ys, n));
    }
  }

  lemma SampleInRange(root: real -> real, xs: seq<real>, ys: seq<real>)
    requires IsRoot(root) && |xs| == |ys| > 0
    ensures SampleCorrelation(root, xs, ys).Some? ==> -1.0 <= SampleCorrelation(root, xs, ys).value <= 1.0
    ensures SampleCorrelation(root, xs, ys) == SampleCorrelation(root, ys, xs)
  {
    var dx, dy := Deviations(xs), Deviations(ys);
    hide Deviations, Dot;
    var product := Times(Dot(dx, dx), Dot(dy, dy));
    DotIsSymmetric(dx, dy);
    assert product == Times(Dot(dy, dy), Dot(dx, dx));
    DotOfSelf(dx);
    DotOfSelf(dy);
    ProductOfNonNegatives(Dot(dx, dx), Dot(dy, dy));
    CauchySchwarz(dx, dy);
    if root(product) > MIN_DENOMINATOR {
      QuotientOfBounded(Dot(dx, dy), root(product));
    }
  }

  // ---- Perfect correlation ----

  /** A series moving as a positive multiple of another, plus a drift. */
  ghost predicate Scaled(xs: seq<real>, ys: seq<real>, k: real, drift: real) {
    |xs| == |ys| && forall i :: 0 <= i < |xs| ==> ys[i] == Times(k, xs[i]) + drift
  }

  lemma {:induction false} SumOfScaled(xs: seq<real>, ys: seq<real>, k: real, drift: real)
    requires Scaled(xs, ys, k, drift)
    ensures Sum(ys) == Times(k, Sum(xs)) + drift * |xs| as real
  {
    if xs != [] {
      SumOfScaled(xs[..|xs| - 1], ys[..|xs| - 1], k, drift);
    }
  }

  lemma MeanOfScaled(xs: seq<real>, ys: seq<real>, k: real, drift: real)
    requires Scaled(xs, ys, k, drift) && xs != []
    ensures Mean(ys) == Times(k, Mean(xs)) + drift
  {
    var n := |xs| as real;
    SumOfScaled(xs, ys, k, drift);
    hide Sum, Scaled;
    QuotientTimesDivisor(Sum(xs), n);
    QuotientTimesDivisor(Sum(ys), n);
    ScaledMean(Sum(xs), Mean(xs), Sum(ys), Mean(ys), n, k, drift);
  }

  lemma ScaledMean(sx: real, mx: real, sy: real, my: real, n: real, k: real, drift: real)
    requires n > 0.0 && mx * n == sx && my * n == sy && sy == k * sx + drift * n
    ensures my == k * mx + drift
  {}

  lemma {:induction false} DotOfScaled(dx: seq<real>, dy: seq<real>, k: real)
    requires Scaled(dx, dy, k, 0.0)
    ensures Dot(dx, dy) == Times(k, Dot(dx, dx))
    ensures Dot(dy, dy) == Times(Times(k, k), Dot(dx, dx))
  {
    if dx != [] {
      var n := |dx| - 1;
      DotOfScaled(dx[..n], dy[..n], k);
      assert dy[n] == Times(k, dx[n]) + 0.0;
      hide Scaled, Times;
      ScaledProduct(k, dx[n], dy[n], Dot(dx[..n], dx[..n]));
    }
  }

  lemma ScaledProduct(k: real, x: real, y: real, rest: real)
    requires y == Times(k, x)
    ensures Times(k, rest) + Times(x, y) == Times(k, rest + Times(x, x))
    ensures Times(Times(k, k), rest) + Times(y, y) == Times(Times(k, k), rest + Times(x, x))
  {}

  /**
   * Returns that are a multiple of each other, plus a drift, correlate by the sign of the multiple; but only while the
   * multiple and the variation together exceed the cutoff, however exact the relation.
   */
  lemma PerfectCorrelation(root: real -> real, xs: seq<real>, ys: seq<real>, k: real, drift: real)
    requires IsRoot(root) && k != 0.0 && xs != [] && Scaled(xs, ys, k, drift)
    ensures SampleCorrelation(root, xs, ys)
            == if Times(Abs(k), Dot(Deviations(xs), Deviations(xs))) > 0.0000000001
               then Some(if k > 0.0 then 1.0 else -1.0) else None
  {
    hide Mean, Dot, Times;
    var dx, dy := Deviations(xs), Deviations(ys);
    DeviationsOfScaled(xs, ys, k, drift);
    hide Deviations;
    DotOfScaled(dx, dy, k);
    DotOfSelf(dx);
    var v := Dot(dx, dx);
    RootOfScaled(root, k, v);
    assert Times(v, Dot(dy, dy)) == Times(v, Times(Times(k, k), v));
    var denominator := root(Times(v, Dot(dy, dy)));
    assert denominator == Times(Abs(k), v);
    if denominator > MIN_DENOMINATOR {
      SignQuotient(k, v);
    }
  }

  lemma SignQuotient(k: real, v: real)
    requires Times(Abs(k), v) > 0.0
    ensures Times(k, v) / Times(Abs(k), v) == if k > 0.0 then 1.0 else -1.0
  {
    if k <= 0.0 {
      assert Times(k, v) == -Times(Abs(k), v);
    }
  }

  lemma DeviationsOfScaled(xs: seq<real>, ys: seq<real>, k: real, drift: real)
    requires xs != [] && Scaled(xs, ys, k, drift)
    ensures Scaled(Deviations(xs), Deviations(ys), k, 0.0)
  {
    hide Mean, Times;
    MeanOfScaled(xs, ys, k, drift);
    var dx, dy := Deviations(xs), Deviations(ys);
    forall i | 0 <= i < |dx| ensures dy[i] == Times(k, dx[i]) + 0.0 {
      TimesDifference(k, xs[i], Mean(xs));
    }
  }

  lemma TimesDifference(k: real, x: real, y: real)
    ensures Times(k, x - y) == Times(k, x) - Times(k, y)
  {}

  lemma RootOfScaled(root: real -> real, k: real, v: real)
    requires IsRoot(root) && v >= 0.0
    ensures root(Times(v, Times(Times(k, k), v))) == Times(Abs(k), v)
  {
    ProductOfNonNegatives(Abs(k), v);
    AbsoluteSquare(k, v);
    RootOfSquare(root, Times(Abs(k), v));
  }

  lemma AbsoluteSquare(k: real, v: real)
    ensures Times(v, Times(Times(k, k), v)) == Times(Times(Abs(k), v), Times(Abs(k), v))
  {
    assert Abs(k) * Abs(k) == k * k;
    assert (Abs(k) * v) * (Abs(k) * v) == (Abs(k) * Abs(k)) * (v * v);
  }

  lemma RootOfSquare(root: real -> real, x: real)
    requires IsRoot(root) && x >= 0.0
    ensures root(Times(x, x)) == x
  {
    SquareIsNonNegative(x);
    SquareOrder(root(Times(x, x)), x);
    SquareOrder(x, root(Times(x, x)));
  }

  // ---- The loop ----

  lemma DotPrefix(xs: seq<real>, ys: seq<real>, i: nat)
    requires i < |xs| == |ys|
    ensures Dot(xs[..i + 1], ys[..i + 1]) == Dot(xs[..i], ys[..i]) + Times(xs[i], ys[i])
  {
    assert xs[..i + 1][..i] == xs[..i] && ys[..i + 1][..i] == ys[..i];
  }

  lemma DotStart(xs: seq<real>, ys: seq<real>)
    requires |xs| == |ys|
    ensures Dot(xs[..0], ys[..0]) == 0.0
  {}

  lemma DeviationAt(xs: seq<real>, i: nat)
    requires i < |xs|
    ensures Deviations(xs)[i] == xs[i] - Mean(xs)
  {}

  /** One pass over two aligned samples, accumulating their covariance and variances. */
  method Accumulate(xs: seq<real>, ys: seq<real>) returns (covariance: real, varianceX: real, varianceY: real)
    requires |xs| == |ys| > 0
    ensures covariance == Dot(Deviations(xs), Deviations(ys))
    ensures varianceX == Dot(Deviations(xs), Deviations(xs)) && varianceY == Dot(Deviations(ys), Deviations(ys))
  {
    hide Dot, Times, Mean, Deviations;
    ghost var dx, dy := Deviations(xs), Deviations(ys);
    var meanX, meanY := Mean(xs), Mean(ys);
    DotStart(dx, dy);
    DotStart(dx, dx);
    DotStart(dy, dy);
    covariance, varianceX, varianceY := 0.0, 0.0, 0.0;
    for i := 0 to |xs|
      invariant covariance == Dot(dx[..i], dy[..i])
      invariant varianceX == Dot(dx[..i], dx[..i])
      invariant varianceY == Dot(dy[..i], dy[..i])
    {
      DeviationAt(xs, i);
      DeviationAt(ys, i);
      DotPrefix(dx, dy, i);
      DotPrefix(dx, dx, i);
      DotPrefix(dy, dy, i);
      var differenceX, differenceY := xs[i] - meanX, ys[i] - meanY;
      covariance := covariance + Times(differenceX, differenceY);
      varianceX := varianceX + Times(differenceX, differenceX);
      varianceY := varianceY + Times(differenceY, differenceY);
    }
    assert dx[..|xs|] == dx && dy[..|xs|] == dy;
  }

  /** Correlation of the latest common window of two histories, as the program computes it. */
  method Correlate(root: real -> real, xs: seq<real>, ys: seq<real>) returns (r: Option<real>)
    ensures r == HistoryCorrelation(root, xs, ys)
  {
    hide Dot, Deviations, Newest, Times;
    var n := if |xs| <= |ys| then |xs| else |ys|;
    if n < MIN_PERIODS {
      return None;
    }
    var covariance, varianceX, varianceY := Accumulate(Newest(xs, n), Newest(ys, n));
    var denominator := root(Times(varianceX, varianceY));
    r := if denominator > MIN_DENOMINATOR then Some(covariance / denominator) else None;
  }
}
