/** Portfolio value at risk from cached pairwise correlations, and concentration (backtest/src/portfolio_risk.rs). */
module ValueAtRisk {
  import opened Reals
  import opened Correlation

  type Symbol = string

  datatype Entry = Entry(asset1: Symbol, asset2: Symbol, correlation: real, observations: nat, reliable: bool)

  /** Correlation assumed between assets the cache does not reliably know. */
  const DEFAULT_CORRELATION := 0.5

  predicate Matches(entry: Entry, a: Symbol, b: Symbol) {
    (entry.asset1 == a && entry.asset2 == b) || (entry.asset1 == b && entry.asset2 == a)
  }

  /** The first reliable cached correlation of two assets. */
  function Lookup(matrix: seq<Entry>, a: Symbol, b: Symbol): Option<real> {
    if matrix == [] then None
    else if Matches(matrix[0], a, b) && matrix[0].reliable then Some(matrix[0].correlation)
    else Lookup(matrix[1..], a, b)
  }

  ghost predicate InRange(matrix: seq<Entry>) {
    forall i :: 0 <= i < |matrix| ==> -1.0 <= matrix[i].correlation <= 1.0
  }

  lemma {:induction false} LookupInRange(matrix: seq<Entry>, a: Symbol, b: Symbol)
    requires InRange(matrix)
    ensures Lookup(matrix, a, b).Some? ==> -1.0 <= Lookup(matrix, a, b).value <= 1.0
    ensures Lookup(matrix, a, b) == Lookup(matrix, b, a)
  {
    if matrix != [] {
      LookupInRange(matrix[1..], a, b);
    }
  }

  // ---- Variance as a double sum ----

  function Link(matrix: seq<Entry>, assets: seq<Symbol>, i: nat, j: nat): real
    requires i < |assets| && j < |assets|
  {
    if i == j then 1.0
    else match Lookup(matrix, assets[i], assets[j])
      case Some(correlation) => correlation
      case None => DEFAULT_CORRELATION
  }

  function Contribution(matrix: seq<Entry>, assets: seq<Symbol>, vs: seq<real>, i: nat, j: nat): real
    requires i < |assets| == |vs| && j < |vs|
  {
    Times(Times(vs[i], vs[j]), Link(matrix, assets, i, j))
  }

  /** Contributions of asset `i` with the first `j` assets. */
  function Row(matrix: seq<Entry>, assets: seq<Symbol>, vs: seq<real>, i: nat, j: nat): real
    requires i < |assets| == |vs| && j <= |vs|
  {
    if j == 0 then 0.0 else Row(matrix, assets, vs, i, j - 1) + Contribution(matrix, assets, vs, i, j - 1)
  }

  /** Full rows of the first `i` assets. */
  function Variance(matrix: seq<Entry>, assets: seq<Symbol>, vs: seq<real>, i: nat): real
    requires i <= |assets| == |vs|
  {
    if i == 0 then 0.0 else Variance(matrix, assets, vs, i - 1) + Row(matrix, assets, vs, i - 1, |vs|)
  }

  function Deviation(vars: seq<real>, z: real): (vs: seq<real>)
    requires z != 0.0
    ensures |vs| == |vars|
  {
    seq(|vars|, i requires 0 <= i < |vars| => vars[i] / z)
  }

  /** Portfolio value at risk; `None` where the square root of a negative variance is not a number. */
  function PortfolioVar(
    root: real -> real, matrix: seq<Entry>, assets: seq<Symbol>, vars: seq<real>, z: real): Option<real>
    requires |assets| == |vars| && z > 0.0
  {
    if vars == [] then Some(0.0)
    else if |vars| == 1 then Some(vars[0])
    else
      var variance := Variance(matrix, assets, Deviation(vars, z), |vars|);
      if variance < 0.0 then None else Some(Times(root(variance), z))
  }

  ghost predicate NonNegative(xs: seq<real>) {
    forall i :: 0 <= i < |xs| ==> xs[i] >= 0.0
  }

  lemma LinkInRange(matrix: seq<Entry>, assets: seq<Symbol>, i: nat, j: nat)
    requires i < |assets| && j < |assets| && InRange(matrix)
    ensures -1.0 <= Link(matrix, assets, i, j) <= 1.0
    ensures Link(matrix, assets, i, j) == Link(matrix, assets, j, i)
  {
    hide InRange;
    LookupInRange(matrix, assets[i], assets[j]);
  }

  lemma ProductScaled(x: real, y: real, c: real)
    requires x >= 0.0 && y >= 0.0 && -1.0 <= c <= 1.0
    ensures -Times(x, y) <= Times(Times(x, y), c) <= Times(x, y)
  {
    ProductOfNonNegatives(x, y);
    ScaledByCorrelation(Times(x, y), c);
  }

  lemma ScaledByCorrelation(p: real, c: real)
    requires p >= 0.0 && -1.0 <= c <= 1.0
    ensures -p <= Times(p, c) <= p
  {}

  lemma TimesSum(x: real, y: real, z: real)
    ensures Times(x, y + z) == Times(x, y) + Times(x, z)
    ensures Times(y + z, x) == Times(y, x) + Times(z, x)
    ensures Times(x, 0.0) == 0.0 == Times(0.0, x)
  {}

  lemma {:induction false} RowIsBounded(matrix: seq<Entry>, assets: seq<Symbol>, vs: seq<real>, i: nat, j: nat)
    requires i < |assets| == |vs| && j <= |vs| && InRange(matrix) && NonNegative(vs)
    ensures Row(matrix, assets, vs, i, j) <= Times(vs[i], Sum(vs[..j]))
  {
    hide Times, Link;
    if j == 0 {
      assert vs[..0] == [];
      TimesSum(vs[i], 0.0, 0.0);
    } else {
      RowIsBounded(matrix, assets, vs, i, j - 1);
      LinkInRange(matrix, assets, i, j - 1);
      ProductScaled(vs[i], vs[j - 1], Link(matrix, assets, i, j - 1));
      SumPrefix(vs, j - 1);
      TimesSum(vs[i], Sum(vs[..j - 1]), vs[j - 1]);
    }
  }

  lemma {:induction false} VarianceIsBounded(matrix: seq<Entry>, assets: seq<Symbol>, vs: seq<real>, i: nat)
    requires i <= |assets| == |vs| && InRange(matrix) && NonNegative(vs)
    ensures Variance(matrix, assets, vs, i) <= Times(Sum(vs[..i]), Sum(vs))
  {
    hide Times, Row;
    if i == 0 {
      assert vs[..0] == [];
      TimesSum(Sum(vs), 0.0, 0.0);
    } else {
      VarianceIsBounded(matrix, assets, vs, i - 1);
      RowIsBounded(matrix, assets, vs, i - 1, |vs|);
      assert vs[..|vs|] == vs;
      SumPrefix(vs, i - 1);
      TimesSum(Sum(vs), Sum(vs[..i - 1]), vs[i - 1]);
    }
  }

  /** Every pair of distinct assets is cached with correlation one. */
  ghost predicate FullyCorrelated(matrix: seq<Entry>, assets: seq<Symbol>) {
    forall i, j :: 0 <= i < |assets| && 0 <= j < |assets| ==> Link(matrix, assets, i, j) == 1.0
  }

  lemma {:induction false} RowFullyCorrelated(matrix: seq<Entry>, assets: seq<Symbol>, vs: seq<real>, i: nat, j: nat)
    requires i < |assets| == |vs| && j <= |vs| && FullyCorrelated(matrix, assets)
    ensures Row(matrix, assets, vs, i, j) == Times(vs[i], Sum(vs[..j]))
  {
    hide Link;
    if j == 0 {
      assert vs[..0] == [];
    } else {
      RowFullyCorrelated(matrix, assets, vs, i, j - 1);
      assert Link(matrix, assets, i, j - 1) == 1.0;
      SumPrefix(vs, j - 1);
      TimesSum(vs[i], Sum(vs[..j - 1]), vs[j - 1]);
    }
  }

  lemma {:induction false} VarianceFullyCorrelated(matrix: seq<Entry>, assets: seq<Symbol>, vs: seq<real>, i: nat)
    requires i <= |assets| == |vs| && FullyCorrelated(matrix, assets)
    ensures Variance(matrix, assets, vs, i) == Times(Sum(vs[..i]), Sum(vs))
  {
    hide Row, FullyCorrelated;
    if i == 0 {
      assert vs[..0] == [];
    } else {
      VarianceFullyCorrelated(matrix, assets, vs, i - 1);
      RowFullyCorrelated(matrix, assets, vs, i - 1, |vs|);
      assert vs[..|vs|] == vs;
      SumPrefix(vs, i - 1);
      TimesSum(Sum(vs), Sum(vs[..i - 1]), vs[i - 1]);
    }
  }

  // ---- Value at risk ----

  lemma {:induction false} SumOfDeviation(vars: seq<real>, z: real)
    requires z > 0.0
    ensures Times(Sum(Deviation(vars, z)), z) == Sum(vars)
  {
    hide Times;
    if vars == [] {
      TimesSum(z, 0.0, 0.0);
    } else {
      var n := |vars| - 1;
      var vs := Deviation(vars, z);
      SumOfDeviation(vars[..n], z);
      assert vs[..n] == Deviation(vars[..n], z);
      TimesQuotient(vars[n], z);
      TimesSum(z, Sum(vs[..n]), vs[n]);
    }
  }

  lemma TimesQuotient(x: real, z: real)
    requires z > 0.0
    ensures Times(x / z, z) == x
  {}

  lemma DeviationIsNonNegative(vars: seq<real>, z: real)
    requires z > 0.0 && NonNegative(vars)
    ensures NonNegative(Deviation(vars, z)) && Sum(Deviation(vars, z)) >= 0.0
  {
    forall i | 0 <= i < |vars| ensures Deviation(vars, z)[i] >= 0.0 {
      NonNegativeQuotient(vars[i], z);
    }
    SumIsNonNegative(Deviation(vars, z));
  }

  lemma RootIsBelow(root: real -> real, variance: real, total: real)
    requires IsRoot(root) && 0.0 <= variance <= Times(total, total) && total >= 0.0
    ensures 0.0 <= root(variance) <= total
    ensures variance == Times(total, total) ==> root(variance) == total
  {
    SquareOrder(root(variance), total);
    if variance == Times(total, total) {
      SquareOrder(total, root(variance));
    }
  }

  /**
   * Whatever the correlations, a portfolio's value at risk is never above the stressed figure, the plain sum; and it
   * reaches that sum when every pair is fully correlated.
   */
  lemma StressedVarIsTheWorst(root: real -> real, matrix: seq<Entry>, assets: seq<Symbol>, vars: seq<real>, z: real)
    requires IsRoot(root) && |assets| == |vars| && z > 0.0 && InRange(matrix) && NonNegative(vars)
    ensures var r := PortfolioVar(root, matrix, assets, vars, z);
            && (r.Some? ==> 0.0 <= r.value <= Sum(vars))
            && (FullyCorrelated(matrix, assets) ==> r == Some(Sum(vars)))
  {
    hide Variance, FullyCorrelated, Times, Deviation, InRange, IsRoot;
    if vars == [] {
    } else if |vars| == 1 {
      assert vars[..0] == [];
      assert Sum(vars) == vars[0];
    } else {
      var vs := Deviation(vars, z);
      var total := Sum(vs);
      SumOfDeviation(vars, z);
      DeviationIsNonNegative(vars, z);
      VarianceIsBounded(matrix, assets, vs, |vs|);
      assert vs[..|vs|] == vs;
      var variance := Variance(matrix, assets, vs, |vs|);
      if FullyCorrelated(matrix, assets) {
        VarianceFullyCorrelated(matrix, assets, vs, |vs|);
        TimesZero(0.0, total);
        TimesKeepsOrder(total, 0.0, total);
      }
      if variance >= 0.0 {
        RootIsBelow(root, variance, total);
        TimesZero(0.0, z);
        TimesKeepsOrder(z, 0.0, root(variance));
        TimesKeepsOrder(z, root(variance), total);
      }
    }
  }

  lemma PairVariance(x: real, y: real, c: real)
    requires x >= 0.0 && y >= 0.0 && -1.0 <= c
    ensures Times(x, x) + Times(Times(x, y), c) + Times(Times(y, x), c) + Times(y, y) >= 0.0
  {
    var p := Times(x, y);
    assert Times(y, x) == p;
    PairVarianceBound(x, y, p, Times(p, c)) by {
      ProductOfNonNegatives(x, y);
      ScaleKeepsOrder(p, -1.0, c);
    }
  }

  lemma PairVarianceBound(x: real, y: real, p: real, q: real)
    requires p == x * y && q >= -p
    ensures Times(x, x) + q + q + Times(y, y) >= 0.0
  {}

  /** With two assets the variance is never negative, so the value at risk is always a number. */
  lemma TwoAssetsAlwaysHaveVar(root: real -> real, matrix: seq<Entry>, assets: seq<Symbol>, vars: seq<real>, z: real)
    requires |assets| == |vars| == 2 && z > 0.0 && InRange(matrix) && NonNegative(vars)
    ensures PortfolioVar(root, matrix, assets, vars, z).Some?
  {
    hide Times, Link, InRange, Deviation, Sum;
    var vs := Deviation(vars, z);
    DeviationIsNonNegative(vars, z);
    LinkInRange(matrix, assets, 0, 1);
    PairVariance(vs[0], vs[1], Link(matrix, assets, 0, 1));
    assert Link(matrix, assets, 0, 0) == 1.0 == Link(matrix, assets, 1, 1) by { DiagonalLink(matrix, assets); }
    TimesOne(Times(vs[0], vs[0]));
    TimesOne(Times(vs[1], vs[1]));
    assert Row(matrix, assets, vs, 0, 1) == Contribution(matrix, assets, vs, 0, 0);
    assert Row(matrix, assets, vs, 1, 1) == Contribution(matrix, assets, vs, 1, 0);
    assert Row(matrix, assets, vs, 0, 2)
      == Contribution(matrix, assets, vs, 0, 0) + Contribution(matrix, assets, vs, 0, 1);
    assert Row(matrix, assets, vs, 1, 2)
      == Contribution(matrix, assets, vs, 1, 0) + Contribution(matrix, assets, vs, 1, 1);
    assert Variance(matrix, assets, vs, 1) == Row(matrix, assets, vs, 0, 2);
    assert Variance(matrix, assets, vs, 2) == Row(matrix, assets, vs, 0, 2) + Row(matrix, assets, vs, 1, 2);
  }

  lemma DiagonalLink(matrix: seq<Entry>, assets: seq<Symbol>)
    ensures forall i :: 0 <= i < |assets| ==> Link(matrix, assets, i, i) == 1.0
  {}

  lemma TimesOne(x: real)
    ensures Times(x, 1.0) == x
  {}

  /** The nested accumulation loops. */
  method CalculatePortfolioVar(root: real -> real, matrix: seq<Entry>, assets: seq<Symbol>, vars: seq<real>, z: real)
    returns (r: Option<real>)
    requires |assets| == |vars| && z > 0.0
    ensures r == PortfolioVar(root, matrix, assets, vars, z)
  {
    hide Link, Times;
    var n := |assets|;
    if n == 0 {
      return Some(0.0);
    }
    if n == 1 {
      return Some(vars[0]);
    }
    ghost var vs := Deviation(vars, z);
    var variance := 0.0;
    for i := 0 to n
      invariant variance == Variance(matrix, assets, vs, i)
    {
      for j := 0 to n
        invariant variance == Variance(matrix, assets, vs, i) + Row(matrix, assets, vs, i, j)
      {
        var vi, vj := vars[i] / z, vars[j] / z;
        assert vs[i] == vi && vs[j] == vj;
        variance := variance + Times(Times(vi, vj), Link(matrix, assets, i, j));
      }
    }
    r := if variance < 0.0 then None else Some(Times(root(variance), z));
  }

  // ---- Concentration ----

  function Share(notional: real, total: real): real {
    notional / Max(total, 1.0)
  }

  /** Sum of squared shares of the gross notional. */
  function Herfindahl(notionals: seq<real>, total: real): real {
    if notionals == [] then 0.0
    else
      var n := |notionals| - 1;
      Herfindahl(notionals[..n], total) + Times(Share(notionals[n], total), Share(notionals[n], total))
  }

  function LargestShare(notionals: seq<real>, total: real): real {
    if notionals == [] then 0.0
    else Max(LargestShare(notionals[..|notionals| - 1], total), Share(notionals[|notionals| - 1], total))
  }

  lemma ShareOfPart(x: real, total: real)
    requires x >= 0.0
    ensures Share(x, total) >= 0.0 && Times(Share(x, total), Max(total, 1.0)) == x
  {}

  lemma {:induction false} ConcentrationStep(notionals: seq<real>, total: real)
    requires NonNegative(notionals)
    ensures var h, m, d := Herfindahl(notionals, total), LargestShare(notionals, total), Max(total, 1.0);
            && m >= 0.0 && Times(m, m) <= h && Times(m, d) <= Sum(notionals)
            && Times(h, d) <= Times(m, Sum(notionals))
  {
    hide Times, Share;
    var d := Max(total, 1.0);
    if notionals == [] {
      TimesSum(d, 0.0, 0.0);
      TimesSum(0.0, 0.0, 0.0);
    } else {
      var n := |notionals| - 1;
      var front := notionals[..n];
      var x := notionals[n];
      var w := Share(x, total);
      ConcentrationStep(front, total);
      ShareOfPart(x, total);
      SumIsNonNegative(front);
      ConcentrationAlgebra(Herfindahl(front, total), LargestShare(front, total), d, Sum(front), w, x);
    }
  }

  lemma {:induction false} SumIsNonNegative(xs: seq<real>)
    requires NonNegative(xs)
    ensures Sum(xs) >= 0.0
  {
    if xs != [] {
      SumIsNonNegative(xs[..|xs| - 1]);
    }
  }

  lemma ConcentrationAlgebra(h: real, m: real, d: real, s: real, w: real, x: real)
    requires m >= 0.0 && w >= 0.0 && d >= 1.0 && x >= 0.0 && s >= 0.0
    requires Times(m, m) <= h && Times(m, d) <= s && Times(h, d) <= Times(m, s) && Times(w, d) == x
    ensures var m', h' := Max(m, w), h + Times(w, w);
            && Times(m', m') <= h' && Times(m', d) <= s + x && Times(h', d) <= Times(m', s + x)
  {
    hide Times;
    var top := Max(m, w);
    SquareIsNonNegative(w);
    SquareIsNonNegative(m);
    TimesSum(d, h, Times(w, w));
    TimesSum(top, s, x);
    TimesKeepsOrder(s, m, top);
    TimesKeepsOrder(x, w, top);
    SquareTimes(w, d, x);
  }

  lemma SquareTimes(w: real, d: real, x: real)
    requires Times(w, d) == x
    ensures Times(Times(w, w), d) == Times(x, w)
  {
    assert (w * w) * d == (w * d) * w;
  }

  /** The index lies between the squared and the plain largest share, and neither exceeds one. */
  lemma ConcentrationBounds(notionals: seq<real>)
    requires NonNegative(notionals)
    ensures var h, m := Herfindahl(notionals, Sum(notionals)), LargestShare(notionals, Sum(notionals));
            Times(m, m) <= h <= m <= 1.0
  {
    hide Herfindahl, LargestShare, Times, Sum;
    var total := Sum(notionals);
    ConcentrationStep(notionals, total);
    SumIsNonNegative(notionals);
    SharesAtMostOne(Herfindahl(notionals, total), LargestShare(notionals, total), Max(total, 1.0), total);
  }

  lemma SharesAtMostOne(h: real, m: real, d: real, total: real)
    requires d >= 1.0 && 0.0 <= total <= d && m >= 0.0 && Times(m, d) <= total && Times(h, d) <= Times(m, total)
    ensures h <= m <= 1.0
  {
    CancelFactor(d, m, 1.0);
    ScaleKeepsOrder(m, total, d);
    CancelFactor(d, h, m);
  }
}
