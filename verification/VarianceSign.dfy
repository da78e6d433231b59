/** When the variance of the cached correlations cannot be negative (backtest/src/portfolio_risk.rs). */
module VarianceSign {
  import opened Reals
  import opened Correlation
  import opened ValueAtRisk

  // ---- Correlations that are products of directions ----

  ghost predicate SameLength(us: seq<seq<real>>, m: nat) {
    forall i :: 0 <= i < |us| ==> |us[i]| == m
  }

  /** `xs` plus `k` times `ys`. */
  function AddScaled(xs: seq<real>, k: real, ys: seq<real>): (r: seq<real>)
    requires |xs| == |ys|
    ensures |r| == |xs|
  {
    seq(|xs|, i requires 0 <= i < |xs| => xs[i] + Times(k, ys[i]))
  }

  function Zeros(m: nat): (r: seq<real>)
    ensures |r| == m
  {
    seq(m, i => 0.0)
  }

  /** The portfolio as one series: the first `n` directions weighted by `vs`. */
  function Mix(vs: seq<real>, us: seq<seq<real>>, m: nat, n: nat): (r: seq<real>)
    requires n <= |us| == |vs| && SameLength(us, m)
    ensures |r| == m
  {
    if n == 0 then Zeros(m) else AddScaled(Mix(vs, us, m, n - 1), vs[n - 1], us[n - 1])
  }

  lemma {:induction false} DotOfZeros(xs: seq<real>)
    ensures Dot(xs, Zeros(|xs|)) == 0.0 == Dot(Zeros(|xs|), xs)
  {
    if xs != [] {
      var n := |xs| - 1;
      assert Zeros(|xs|)[..n] == Zeros(n);
      DotOfZeros(xs[..n]);
    }
  }

  lemma {:induction false} DotOfAddScaled(us: seq<real>, xs: seq<real>, k: real, ys: seq<real>)
    requires |us| == |xs| == |ys|
    ensures Dot(us, AddScaled(xs, k, ys)) == Dot(us, xs) + Times(k, Dot(us, ys))
  {
    if us != [] {
      var n := |us| - 1;
      assert AddScaled(xs, k, ys)[..n] == AddScaled(xs[..n], k, ys[..n]);
      DotOfAddScaled(us[..n], xs[..n], k, ys[..n]);
      AddScaledTerm(us[n], xs[n], k, ys[n], Dot(us[..n], ys[..n]));
    }
  }

  lemma AddScaledTerm(u: real, x: real, k: real, y: real, rest: real)
    ensures Times(u, x + Times(k, y)) == Times(u, x) + Times(k, Times(u, y))
    ensures Times(k, rest + Times(u, y)) == Times(k, rest) + Times(k, Times(u, y))
  {}

  /** No pair is cached below the product of its two directions. */
  ghost predicate Dominates(matrix: seq<Entry>, assets: seq<Symbol>, us: seq<seq<real>>, m: nat)
    requires |us| == |assets| && SameLength(us, m)
  {
    forall i, j :: 0 <= i < |us| && 0 <= j < |us| ==> Link(matrix, assets, i, j) >= Dot(us[i], us[j])
  }

  lemma {:induction false} RowAboveMix(
    matrix: seq<Entry>, assets: seq<Symbol>, vs: seq<real>, us: seq<seq<real>>, m: nat, i: nat, j: nat)
    requires i < |us| == |assets| == |vs| && j <= |vs| && SameLength(us, m)
    requires NonNegative(vs) && Dominates(matrix, assets, us, m)
    ensures Row(matrix, assets, vs, i, j) >= Times(vs[i], Dot(us[i], Mix(vs, us, m, j)))
  {
    hide Times, Link, Dot;
    if j == 0 {
      DotOfZeros(us[i]);
      TimesSum(vs[i], 0.0, 0.0);
    } else {
      RowAboveMix(matrix, assets, vs, us, m, i, j - 1);
      DotOfAddScaled(us[i], Mix(vs, us, m, j - 1), vs[j - 1], us[j - 1]);
      assert Link(matrix, assets, i, j - 1) >= Dot(us[i], us[j - 1]);
      RowTerm(vs[i], vs[j - 1], Link(matrix, assets, i, j - 1), Dot(us[i], us[j - 1]),
              Dot(us[i], Mix(vs, us, m, j - 1)));
    }
  }

  lemma RowTerm(x: real, y: real, link: real, dot: real, rest: real)
    requires x >= 0.0 && y >= 0.0 && link >= dot
    ensures Times(x, rest) + Times(Times(x, y), link) >= Times(x, rest + Times(y, dot))
  {
    ProductOfNonNegatives(x, y);
    ScaleKeepsOrder(x * y, dot, link);
  }

  lemma {:induction false} VarianceAboveMix(
    matrix: seq<Entry>, assets: seq<Symbol>, vs: seq<real>, us: seq<seq<real>>, m: nat, n: nat)
    requires n <= |us| == |assets| == |vs| && SameLength(us, m)
    requires NonNegative(vs) && Dominates(matrix, assets, us, m)
    ensures Variance(matrix, assets, vs, n) >= Dot(Mix(vs, us, m, n), Mix(vs, us, m, |vs|))
  {
    hide Times, Link, Dot, Row, Dominates;
    var whole := Mix(vs, us, m, |vs|);
    if n == 0 {
      DotOfZeros(whole);
    } else {
      VarianceAboveMix(matrix, assets, vs, us, m, n - 1);
      RowAboveMix(matrix, assets, vs, us, m, n - 1, |vs|);
      DotIsSymmetric(Mix(vs, us, m, n), whole);
      DotIsSymmetric(Mix(vs, us, m, n - 1), whole);
      DotIsSymmetric(us[n - 1], whole);
      DotOfAddScaled(whole, Mix(vs, us, m, n - 1), vs[n - 1], us[n - 1]);
    }
  }

  /**
   * For any number of assets and any weights: when no pair is cached below the product of two directions, the variance
   * is at least the square of the portfolio's own series, hence never negative.
   */
  lemma VarianceAboveGram(matrix: seq<Entry>, assets: seq<Symbol>, vs: seq<real>, us: seq<seq<real>>, m: nat)
    requires |us| == |assets| == |vs| && SameLength(us, m)
    requires NonNegative(vs) && Dominates(matrix, assets, us, m)
    ensures var portfolio := Mix(vs, us, m, |vs|);
            Variance(matrix, assets, vs, |vs|) >= Dot(portfolio, portfolio) >= 0.0
  {
    VarianceAboveMix(matrix, assets, vs, us, m, |vs|);
    DotOfSelf(Mix(vs, us, m, |vs|));
  }

  // ---- Three assets ----

  /** Whatever the weights, value at risk is a number. */
  ghost predicate AlwaysHasVar(root: real -> real, matrix: seq<Entry>, assets: seq<Symbol>, z: real)
    requires z > 0.0
  {
    forall vars: seq<real> :: |vars| == |assets| && NonNegative(vars) ==>
      PortfolioVar(root, matrix, assets, vars, z).Some?
  }

  /** The variance of weights `x`, `y`, `w` whose pairs are correlated by `a`, `b` and `c`. */
  function TripleForm(x: real, y: real, w: real, a: real, b: real, c: real): real {
    Times(x, x) + Times(y, y) + Times(w, w) + 2.0 * Times(Times(x, y), a) + 2.0 * Times(Times(x, w), b)
      + 2.0 * Times(Times(y, w), c)
  }

  function Determinant(a: real, b: real, c: real): real {
    1.0 + 2.0 * a * b * c - a * a - b * b - c * c
  }

  /** Three correlations no non-negative weights can turn into a negative variance. */
  predicate Compatible(a: real, b: real, c: real) {
    a + b + c >= -1.0 || Determinant(a, b, c) >= 0.0
  }

  predicate Correlations(a: real, b: real, c: real) {
    -1.0 <= a <= 1.0 && -1.0 <= b <= 1.0 && -1.0 <= c <= 1.0
  }

  lemma TripleVariance(matrix: seq<Entry>, assets: seq<Symbol>, vs: seq<real>)
    requires |assets| == |vs| == 3
    ensures Variance(matrix, assets, vs, 3)
            == TripleForm(vs[0], vs[1], vs[2], Link(matrix, assets, 0, 1), Link(matrix, assets, 0, 2),
               Link(matrix, assets, 1, 2))
  {
    forall i, j | 0 <= i < 3 && 0 <= j < 3 ensures Link(matrix, assets, i, j) == Link(matrix, assets, j, i) {
      LinkIsSymmetric(matrix, assets, i, j);
    }
    DiagonalLink(matrix, assets);
    hide Link;
    forall i | 0 <= i < 3
      ensures Row(matrix, assets, vs, i, 3) ==
              Contribution(matrix, assets, vs, i, 0) + Contribution(matrix, assets, vs, i, 1)
                                               + Contribution(matrix, assets, vs, i, 2)
    {
      assert Row(matrix, assets, vs, i, 1) == Contribution(matrix, assets, vs, i, 0);
      assert Row(matrix, assets, vs, i, 2)
        == Contribution(matrix, assets, vs, i, 0) + Contribution(matrix, assets, vs, i, 1);
    }
    assert Variance(matrix, assets, vs, 1) == Row(matrix, assets, vs, 0, 3);
    assert Variance(matrix, assets, vs, 2) == Row(matrix, assets, vs, 0, 3) + Row(matrix, assets, vs, 1, 3);
  }

  lemma {:induction false} LookupIsSymmetric(matrix: seq<Entry>, a: Symbol, b: Symbol)
    ensures Lookup(matrix, a, b) == Lookup(matrix, b, a)
  {
    if matrix != [] {
      LookupIsSymmetric(matrix[1..], a, b);
    }
  }

  lemma LinkIsSymmetric(matrix: seq<Entry>, assets: seq<Symbol>, i: nat, j: nat)
    requires i < |assets| && j < |assets|
    ensures Link(matrix, assets, i, j) == Link(matrix, assets, j, i)
  {
    LookupIsSymmetric(matrix, assets[i], assets[j]);
  }

  // A sum of squares where the determinant is not negative.

  lemma PairForm(p: real, q: real, r: real, y: real, w: real)
    requires p >= 0.0 && r >= 0.0 && q * q <= p * r
    ensures p * (y * y) + 2.0 * q * y * w + r * (w * w) >= 0.0
  {
    MixedTerm(p, r, -q, w, y);
  }

  lemma UnitInterval(a: real)
    requires -1.0 <= a <= 1.0
    ensures 1.0 - a * a >= 0.0
  {
    ProductOfNonNegatives(1.0 - a, 1.0 + a);
  }

  lemma DeterminantForm(a: real, b: real, c: real)
    ensures (1.0 - a * a) * (1.0 - b * b) - (c - a * b) * (c - a * b) == Determinant(a, b, c)
  {}

  lemma CompletedSquare(x: real, y: real, w: real, a: real, b: real, c: real)
    ensures var s := x + a * y + b * w;
            TripleForm(x, y, w, a, b, c)
            == s * s + ((1.0 - a * a) * (y * y) + 2.0 * (c - a * b) * y * w + (1.0 - b * b) * (w * w))
  {}

  lemma NonNegativeDeterminant(x: real, y: real, w: real, a: real, b: real, c: real)
    requires Correlations(a, b, c) && Determinant(a, b, c) >= 0.0
    ensures TripleForm(x, y, w, a, b, c) >= 0.0
  {
    hide TripleForm, Determinant;
    RestOfForm(y, w, a, b, c);
    CompletedSquare(x, y, w, a, b, c);
    SquareIsNonNegative(x + a * y + b * w);
  }

  lemma RestOfForm(y: real, w: real, a: real, b: real, c: real)
    requires Correlations(a, b, c) && Determinant(a, b, c) >= 0.0
    ensures (1.0 - a * a) * (y * y) + 2.0 * (c - a * b) * y * w + (1.0 - b * b) * (w * w) >= 0.0
  {
    hide Determinant;
    UnitInterval(a);
    UnitInterval(b);
    DeterminantForm(a, b, c);
    var p, q, r := 1.0 - a * a, c - a * b, 1.0 - b * b;
    assert q * q <= p * r;
    PairForm(p, q, r, y, w);
  }

  // Lowering correlations to a sum of minus one only lowers the form.

  lemma DeterminantAtMinusOne(a: real, b: real, c: real)
    requires Correlations(a, b, c) && a + b + c == -1.0
    ensures Determinant(a, b, c) >= 0.0
  {
    assert c == -1.0 - a - b;
    assert Determinant(a, b, c) == 2.0 * ((1.0 + a) * (1.0 + b) * (1.0 + c));
    ProductOfNonNegatives(1.0 + a, 1.0 + b);
    ProductOfNonNegatives((1.0 + a) * (1.0 + b), 1.0 + c);
  }

  lemma TripleFormGrows(x: real, y: real, w: real, a: real, b: real, c: real, a': real, b': real, c': real)
    requires x >= 0.0 && y >= 0.0 && w >= 0.0 && a' <= a && b' <= b && c' <= c
    ensures TripleForm(x, y, w, a', b', c') <= TripleForm(x, y, w, a, b, c)
  {
    ProductOfNonNegatives(x, y);
    ProductOfNonNegatives(x, w);
    ProductOfNonNegatives(y, w);
    ScaleKeepsOrder(x * y, a', a);
    ScaleKeepsOrder(x * w, b', b);
    ScaleKeepsOrder(y * w, c', c);
  }

  lemma LargeSum(x: real, y: real, w: real, a: real, b: real, c: real)
    requires x >= 0.0 && y >= 0.0 && w >= 0.0 && Correlations(a, b, c) && a + b + c >= -1.0
    ensures TripleForm(x, y, w, a, b, c) >= 0.0
  {
    var b', c' := if a + b >= 0.0 then -a else b, if a + b >= 0.0 then -1.0 else -1.0 - a - b;
    hide TripleForm, Determinant;
    DeterminantAtMinusOne(a, b', c');
    NonNegativeDeterminant(x, y, w, a, b', c');
    TripleFormGrows(x, y, w, a, b, c, a, b', c');
  }

  // Otherwise the weights of one column of the adjugate make it negative.

  lemma ColumnValue(a: real, b: real, c: real)
    ensures TripleForm(1.0 - c * c, b * c - a, a * c - b, a, b, c) == (1.0 - c * c) * Determinant(a, b, c)
  {
    var x, y, w := 1.0 - c * c, b * c - a, a * c - b;
    FormByRows(x, y, w, a, b, c);
    ColumnRows(a, b, c);
    hide TripleForm, Determinant;
    FormOfColumn(x, y, w, x + a * y + b * w, a * x + y + c * w, b * x + c * y + w);
  }

  lemma ColumnRows(a: real, b: real, c: real)
    ensures (1.0 - c * c) + a * (b * c - a) + b * (a * c - b) == Determinant(a, b, c)
    ensures a * (1.0 - c * c) + (b * c - a) + c * (a * c - b) == 0.0
    ensures b * (1.0 - c * c) + c * (b * c - a) + (a * c - b) == 0.0
  {}

  lemma FormOfColumn(x: real, y: real, w: real, p: real, q: real, r: real)
    requires q == 0.0 && r == 0.0
    ensures x * p + y * q + w * r == x * p
  {}

  lemma FormByRows(x: real, y: real, w: real, a: real, b: real, c: real)
    ensures TripleForm(x, y, w, a, b, c) == x * (x + a * y + b * w) + y * (a * x + y + c * w) + w * (b * x + c * y + w)
  {}

  lemma ColumnIsNonNegative(a: real, b: real, c: real)
    requires Correlations(a, b, c) && a + b + c < -1.0
    ensures 1.0 - c * c >= 0.0 && b * c - a >= 0.0 && a * c - b >= 0.0
  {
    UnitInterval(c);
    ProductOfNonNegatives(1.0 + b, 1.0 + c);
    ProductOfNonNegatives(1.0 + a, 1.0 + c);
  }

  lemma ColumnIsNegative(a: real, b: real, c: real)
    requires Correlations(a, b, c) && Determinant(a, b, c) < 0.0 && -1.0 < c < 1.0
    ensures TripleForm(1.0 - c * c, b * c - a, a * c - b, a, b, c) < 0.0
  {
    ColumnValue(a, b, c);
    ProductOfPositives(1.0 - c, 1.0 + c);
    ProductOfPositives(1.0 - c * c, -Determinant(a, b, c));
  }

  lemma Renamed(x: real, y: real, w: real, a: real, b: real, c: real)
    ensures TripleForm(x, y, w, a, b, c) == TripleForm(y, x, w, a, c, b) == TripleForm(w, y, x, c, b, a)
    ensures Determinant(a, b, c) == Determinant(a, c, b) == Determinant(c, b, a)
  {}

  lemma NegativeWeights(a: real, b: real, c: real) returns (x: real, y: real, w: real)
    requires Correlations(a, b, c) && !Compatible(a, b, c)
    ensures x >= 0.0 && y >= 0.0 && w >= 0.0 && TripleForm(x, y, w, a, b, c) < 0.0
  {
    if c > -1.0 {
      x, y, w := 1.0 - c * c, b * c - a, a * c - b;
      hide TripleForm, Determinant;
      ColumnIsNonNegative(a, b, c);
      ColumnIsNegative(a, b, c);
    } else if b > -1.0 {
      y, x, w := 1.0 - b * b, c * b - a, a * b - c;
      hide TripleForm, Determinant;
      Renamed(x, y, w, a, b, c);
      ColumnIsNonNegative(a, c, b);
      ColumnIsNegative(a, c, b);
    } else if a > -1.0 {
      w, y, x := 1.0 - a * a, b * a - c, c * a - b;
      hide TripleForm, Determinant;
      Renamed(x, y, w, a, b, c);
      ColumnIsNonNegative(c, b, a);
      ColumnIsNegative(c, b, a);
    } else {
      x, y, w := 1.0, 1.0, 1.0;
    }
  }

  /**
   * With three assets value at risk is a number for every choice of positions exactly when the three correlations sum
   * to at least -1 or have a determinant that is not negative.
   */
  lemma ThreeAssetsHaveVarIff(root: real -> real, matrix: seq<Entry>, assets: seq<Symbol>, z: real)
    requires |assets| == 3 && z > 0.0 && InRange(matrix)
    ensures AlwaysHasVar(root, matrix, assets, z)
       <==> Compatible(Link(matrix, assets, 0, 1), Link(matrix, assets, 0, 2), Link(matrix, assets, 1, 2))
  {
    hide Link, InRange, TripleForm, Determinant, Deviation;
    var a, b, c := Link(matrix, assets, 0, 1), Link(matrix, assets, 0, 2), Link(matrix, assets, 1, 2);
    LinkInRange(matrix, assets, 0, 1);
    LinkInRange(matrix, assets, 0, 2);
    LinkInRange(matrix, assets, 1, 2);
    if Compatible(a, b, c) {
      forall vars: seq<real> | |vars| == 3 && NonNegative(vars)
        ensures PortfolioVar(root, matrix, assets, vars, z).Some?
      {
        var vs := Deviation(vars, z);
        DeviationIsNonNegative(vars, z);
        TripleVariance(matrix, assets, vs);
        if a + b + c >= -1.0 {
          LargeSum(vs[0], vs[1], vs[2], a, b, c);
        } else {
          NonNegativeDeterminant(vs[0], vs[1], vs[2], a, b, c);
        }
      }
    } else {
      var x, y, w := NegativeWeights(a, b, c);
      var vs := [x, y, w];
      var vars := [x * z, y * z, w * z];
      ScaledWeights(x, y, w, z);
      TripleVariance(matrix, assets, vs);
      assert PortfolioVar(root, matrix, assets, vars, z) == None;
    }
  }

  lemma ScaledWeights(x: real, y: real, w: real, z: real)
    requires x >= 0.0 && y >= 0.0 && w >= 0.0 && z > 0.0
    ensures NonNegative([x * z, y * z, w * z])
    ensures Deviation([x * z, y * z, w * z], z) == [x, y, w]
  {
    ProductOfNonNegatives(x, z);
    ProductOfNonNegatives(y, z);
    ProductOfNonNegatives(w, z);
    assert x * z / z == x && y * z / z == y && w * z / z == w;
  }
}
