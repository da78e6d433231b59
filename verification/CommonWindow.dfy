/** Which histories give a portfolio value at risk that is a number (backtest/src/portfolio_risk.rs). */
module CommonWindow {
  import opened Reals
  import opened Correlation
  import opened ValueAtRisk
  import opened VarianceSign
  import opened PortfolioRisk

  /** Assets whose correlations count were observed equally often. */
  ghost predicate SharesWindow(history: map<Symbol, Returns>, assets: seq<Symbol>, m: nat) {
    m > 0 && forall i :: 0 <= i < |assets| && Long(history, assets[i]) ==> |history[assets[i]].values| == m
  }

  function Moves(xs: seq<real>): (ds: seq<real>)
    requires xs != []
    ensures |ds| == |xs|
  {
    Deviations(Newest(xs, |xs|))
  }

  /** The correlation of the two is defined, or they do not move together. */
  predicate Measured(root: real -> real, xs: seq<real>, ys: seq<real>)
    requires |xs| == |ys| > 0
  {
    HistoryCorrelation(root, xs, ys).Some? || Dot(Moves(xs), Moves(ys)) <= 0.0
  }

  ghost predicate AllMeasured(root: real -> real, history: map<Symbol, Returns>, assets: seq<Symbol>, m: nat)
    requires SharesWindow(history, assets, m)
  {
    forall i, j :: 0 <= i < j < |assets| && Long(history, assets[i]) && Long(history, assets[j]) ==>
      Measured(root, history[assets[i]].values, history[assets[j]].values)
  }

  ghost predicate Distinct(assets: seq<Symbol>) {
    forall i, j :: 0 <= i < j < |assets| ==> assets[i] != assets[j]
  }

  // ---- Directions ----

  /** A history as a vector of length one, or zero where it never moves. */
  function Unit(root: real -> real, xs: seq<real>): (u: seq<real>)
    requires xs != []
    ensures |u| == |xs|
  {
    var size := root(Dot(Moves(xs), Moves(xs)));
    if size == 0.0 then Zeros(|xs|) else AddScaled(Zeros(|xs|), 1.0 / size, Moves(xs))
  }

  lemma DotOfUnits(root: real -> real, xs: seq<real>, ys: seq<real>)
    requires IsRoot(root) && |xs| == |ys| > 0
    ensures var sx, sy := root(Dot(Moves(xs), Moves(xs))), root(Dot(Moves(ys), Moves(ys)));
            Dot(Unit(root, xs), Unit(root, ys))
            == if sx == 0.0 || sy == 0.0 then 0.0 else Times(1.0 / sx, Times(1.0 / sy, Dot(Moves(xs), Moves(ys))))
  {
    hide Dot, Times, Moves, Zeros, AddScaled, IsRoot;
    var dx, dy := Moves(xs), Moves(ys);
    var ux, uy, sx, sy := Unit(root, xs), Unit(root, ys), root(Dot(dx, dx)), root(Dot(dy, dy));
    DotOfZeros(ux);
    DotOfZeros(uy);
    DotOfZeros(dx);
    if sx != 0.0 && sy != 0.0 {
      DotOfAddScaled(ux, Zeros(|ys|), 1.0 / sy, dy);
      DotOfAddScaled(dy, Zeros(|xs|), 1.0 / sx, dx);
      DotOfZeros(dy);
      DotIsSymmetric(ux, dy);
      DotIsSymmetric(dx, dy);
      TimesCommute(1.0 / sx, 1.0 / sy, Dot(dx, dy));
    }
  }

  lemma TimesCommute(x: real, y: real, z: real)
    ensures 0.0 + Times(y, 0.0 + Times(x, z)) == Times(x, Times(y, z))
  {}

  /** A unit vector's square never exceeds one. */
  lemma UnitSquare(root: real -> real, xs: seq<real>)
    requires IsRoot(root) && xs != []
    ensures Dot(Unit(root, xs), Unit(root, xs)) <= 1.0
  {
    var v := Dot(Moves(xs), Moves(xs));
    DotOfSelf(Moves(xs));
    DotOfUnits(root, xs, xs);
    hide Dot, Moves, Unit;
    if root(v) != 0.0 {
      InverseSquare(root(v), v);
    }
  }

  lemma InverseSquare(s: real, v: real)
    requires s != 0.0 && s * s == v
    ensures Times(1.0 / s, Times(1.0 / s, v)) == 1.0
  {
    var inverse := 1.0 / s;
    assert inverse * s == 1.0;
    assert inverse * (inverse * (s * s)) == (inverse * s) * (inverse * s);
  }

  lemma RootOfProduct(root: real -> real, x: real, y: real)
    requires IsRoot(root) && x >= 0.0 && y >= 0.0
    ensures root(Times(x, y)) == Times(root(x), root(y))
  {
    var rx, ry := root(x), root(y);
    ProductOfNonNegatives(rx, ry);
    RegroupSquares(rx, ry, x, y);
    hide Times;
    RootOfSquare(root, Times(rx, ry));
  }

  lemma RegroupSquares(x: real, y: real, xx: real, yy: real)
    requires x * x == xx && y * y == yy
    ensures Times(Times(x, y), Times(x, y)) == Times(xx, yy)
  {
    assert (x * y) * (x * y) == (x * x) * (y * y);
  }

  lemma InverseProduct(x: real, y: real, c: real)
    requires x > 0.0 && y > 0.0
    ensures Times(x, y) > 0.0 && Times(1.0 / x, Times(1.0 / y, c)) == c / Times(x, y)
  {
    ProductOfPositives(x, y);
    TimesInverse(y, c);
    TimesInverse(x, c / y);
    var q := c / y / x;
    QuotientTimesDivisor(c / y, x);
    QuotientTimesDivisor(c, y);
    assert q * (x * y) == (q * x) * y;
    QuotientOfProduct(q, x * y);
  }

  lemma TimesInverse(x: real, c: real)
    requires x != 0.0
    ensures Times(1.0 / x, c) == c / x
  {}

  lemma QuotientOfProduct(q: real, d: real)
    requires d != 0.0
    ensures q * d / d == q
  {}

  /** What the cache stores for two histories of one length is at least the product of their directions. */
  lemma StoredAboveUnits(root: real -> real, xs: seq<real>, ys: seq<real>)
    requires IsRoot(root) && |xs| == |ys| >= MIN_PERIODS && Measured(root, xs, ys)
    ensures var correlation := HistoryCorrelation(root, xs, ys);
            Dot(Unit(root, xs), Unit(root, ys)) <= if correlation.Some? then correlation.value else 0.0
  {
    var dx, dy := Moves(xs), Moves(ys);
    var vx, vy, c := Dot(dx, dx), Dot(dy, dy), Dot(dx, dy);
    assert HistoryCorrelation(root, xs, ys) == SampleCorrelation(root, Newest(xs, |xs|), Newest(ys, |ys|));
    DotOfSelf(dx);
    DotOfSelf(dy);
    DotOfUnits(root, xs, ys);
    RootOfProduct(root, vx, vy);
    hide Dot, Moves, Unit, Times;
    if root(vx) == 0.0 || root(vy) == 0.0 {
      TimesZero(root(vx), root(vy));
    } else {
      InverseProduct(root(vx), root(vy), c);
      if root(Times(vx, vy)) <= MIN_DENOMINATOR {
        NonPositiveQuotient(c, Times(root(vx), root(vy)));
      }
    }
  }

  lemma NonPositiveQuotient(x: real, y: real)
    requires x <= 0.0 && y > 0.0
    ensures x / y <= 0.0
  {}

  // ---- The portfolio ----

  function Direction(root: real -> real, history: map<Symbol, Returns>, s: Symbol, m: nat): (u: seq<real>)
    requires Long(history, s) ==> |history[s].values| == m
    ensures |u| == m
  {
    if Long(history, s) then Unit(root, history[s].values) else Zeros(m)
  }

  function Directions(
    root: real -> real, history: map<Symbol, Returns>, assets: seq<Symbol>, m: nat): (us: seq<seq<real>>)
    requires SharesWindow(history, assets, m)
    ensures |us| == |assets| && SameLength(us, m)
    ensures forall i :: 0 <= i < |us| ==> us[i] == Direction(root, history, assets[i], m)
  {
    seq(|assets|, i requires 0 <= i < |assets| => Direction(root, history, assets[i], m))
  }

  lemma {:induction false} UnknownIsNotFound(
    root: real -> real, history: map<Symbol, Returns>, matrix: seq<Entry>, a: Symbol, b: Symbol)
    requires Faithful(root, history, matrix) && (a !in history || b !in history)
    ensures Lookup(matrix, a, b) == None
  {
    hide EntryFor;
    if matrix != [] {
      UnknownIsNotFound(root, history, matrix[1..], a, b);
    }
  }

  /** How the cache links two different assets. */
  lemma LinkIsRecomputation(
    root: real -> real, history: map<Symbol, Returns>, matrix: seq<Entry>, assets: seq<Symbol>, i: nat, j: nat)
    requires IsRoot(root) && i < |assets| && j < |assets| && assets[i] != assets[j]
    requires Faithful(root, history, matrix) && CoversAll(matrix, history.Keys)
    ensures var a, b := assets[i], assets[j];
            Link(matrix, assets, i, j)
            == if Long(history, a) && Long(history, b) then EntryFor(root, history, a, b).correlation
               else 0.5
  {
    hide IsRoot, Faithful, Covers;
    var a, b := assets[i], assets[j];
    if a in history && b in history {
      LookupIsRecomputation(root, history, matrix, a, b);
    } else {
      UnknownIsNotFound(root, history, matrix, a, b);
    }
  }

  lemma DirectionsDominated(
    root: real -> real, history: map<Symbol, Returns>, matrix: seq<Entry>, assets: seq<Symbol>, m: nat, i: nat, j: nat)
    requires IsRoot(root) && Distinct(assets) && SharesWindow(history, assets, m)
             && AllMeasured(root, history, assets, m)
    requires Faithful(root, history, matrix) && CoversAll(matrix, history.Keys)
    requires i < |assets| && j < |assets|
    ensures Link(matrix, assets, i, j)
            >= Dot(Direction(root, history, assets[i], m), Direction(root, history, assets[j], m))
  {
    hide IsRoot, Faithful, CoversAll, Unit, Dot, HistoryCorrelation;
    var a, b := assets[i], assets[j];
    var ua, ub := Direction(root, history, a, m), Direction(root, history, b, m);
    if !Long(history, a) || !Long(history, b) {
      DotOfZeros(ua);
      DotOfZeros(ub);
    }
    if i == j {
      if Long(history, a) {
        UnitSquare(root, history[a].values);
      }
    } else {
      LinkIsRecomputation(root, history, matrix, assets, i, j);
      if Long(history, a) && Long(history, b) {
        var xs, ys := history[a].values, history[b].values;
        if i > j {
          CorrelationInRange(root, xs, ys);
          DotIsSymmetric(Moves(xs), Moves(ys));
        }
        StoredAboveUnits(root, xs, ys);
      }
    }
  }

  /**
   * However many assets are held and however they are weighted: when those with enough returns were all observed
   * equally often and each two of them have a defined correlation, or do not move together, value at risk is a number.
   */
  lemma CommonWindowHasVar(
    root: real -> real, history: map<Symbol, Returns>, matrix: seq<Entry>, assets: seq<Symbol>, vars: seq<real>,
    z: real, m: nat)
    requires IsRoot(root) && Distinct(assets) && SharesWindow(history, assets, m)
             && AllMeasured(root, history, assets, m)
    requires Faithful(root, history, matrix) && CoversAll(matrix, history.Keys)
    requires |vars| == |assets| && NonNegative(vars) && z > 0.0
    ensures PortfolioVar(root, matrix, assets, vars, z).Some?
  {
    hide IsRoot, Faithful, CoversAll, Direction, AllMeasured, Link, Dot, Variance;
    var us, vs := Directions(root, history, assets, m), Deviation(vars, z);
    DeviationIsNonNegative(vars, z);
    forall i, j | 0 <= i < |us| && 0 <= j < |us| ensures Link(matrix, assets, i, j) >= Dot(us[i], us[j]) {
      DirectionsDominated(root, history, matrix, assets, m, i, j);
    }
    VarianceAboveGram(matrix, assets, vs, us, m);
  }

  /** The same for the figures reported for the positions held, at prices that are not negative. */
  lemma CommonWindowReportsVar(
    root: real -> real, history: map<Symbol, Returns>, matrix: seq<Entry>, held: seq<Position>,
    volatilities: map<Symbol, real>, order: seq<Symbol>, m: nat)
    requires IsRoot(root) && Distinct(order) && SharesWindow(history, order, m) && AllMeasured(root, history, order, m)
    requires Faithful(root, history, matrix) && CoversAll(matrix, history.Keys)
    requires |held| == |order| && MarkedAtValidPrices(held) && forall s :: s in volatilities ==> volatilities[s] >= 0.0
    ensures MetricsOf(root, matrix, held, volatilities, order).valueAtRisk.Some?
  {
    hide IsRoot, Faithful, CoversAll, AllMeasured, SharesWindow, PortfolioVar, IndividualVar;
    if held != [] {
      var vars := IndividualVars(root, held, volatilities, order);
      forall i | 0 <= i < |vars| ensures vars[i] >= 0.0 {
        IndividualVarIsNonNegative(root, held[i].notional, VolatilityOf(volatilities, order[i]));
      }
      CommonWindowHasVar(root, history, matrix, order, vars, Z_95, m);
    }
  }

  // ---- Three histories without a value at risk ----

  /** Returns that jump between `x` and its negative. */
  function Alternating(n: nat, x: real): (xs: seq<real>)
    ensures |xs| == n
  {
    seq(n, i requires 0 <= i < n => if i % 2 == 0 then x else -x)
  }

  lemma {:induction false} AlternatingSums(n: nat, x: real)
    ensures Sum(Alternating(n, x)) == if n % 2 == 0 then 0.0 else x
    ensures Dot(Alternating(n, x), Alternating(n, x)) == n as real * Times(x, x)
  {
    if n > 0 {
      assert Alternating(n, x)[..n - 1] == Alternating(n - 1, x);
      AlternatingSums(n - 1, x);
      assert Times(-x, -x) == Times(x, x);
    }
  }

  /** Read newest first, twenty alternating returns alternate from the other sign, and their mean is zero. */
  lemma AlternatingMoves(x: real)
    ensures var xs := Alternating(MIN_PERIODS, x);
            Newest(xs, MIN_PERIODS) == Moves(xs) == Alternating(MIN_PERIODS, -x)
            && Dot(Moves(xs), Moves(xs)) == 20.0 * Times(x, x)
  {
    var xs := Alternating(MIN_PERIODS, x);
    assert Newest(xs, MIN_PERIODS) == Alternating(MIN_PERIODS, -x);
    AlternatingSums(MIN_PERIODS, -x);
    assert Mean(Alternating(MIN_PERIODS, -x)) == 0.0;
    assert Moves(xs) == Alternating(MIN_PERIODS, -x);
    assert Times(-x, -x) == Times(x, x);
  }

  /** Returns observed an hour apart. */
  function Hourly(xs: seq<real>): Returns {
    Returns(xs, seq(|xs|, i => 3600000 * i))
  }

  /** Twenty such returns have, as squared volatility, twenty nineteenths of the squared jump. */
  lemma VolatilityOfAlternating(root: real -> real, x: real)
    requires IsRoot(root)
    ensures var v := SampleVolatility(root, Alternating(MIN_PERIODS, x));
            v >= 0.0 && 19.0 * Times(v, v) == 20.0 * Times(x, x)
  {
    var xs := Alternating(MIN_PERIODS, x);
    AlternatingSums(MIN_PERIODS, x);
    assert Mean(xs) == 0.0;
    assert Deviations(xs) == xs;
    hide Alternating, Dot, Deviations;
    var square := Dot(xs, xs) / 19.0;
    DotOfSelf(xs);
    assert SampleVolatility(root, xs) == root(square);
    assert root(square) * root(square) == square;
  }

  const SMALL := 0.000001

  function Opposed(): map<Symbol, Returns> {
    map["A" := Hourly(Alternating(MIN_PERIODS, 1.0)),
        "B" := Hourly(Alternating(MIN_PERIODS, -SMALL)),
        "C" := Hourly(Alternating(MIN_PERIODS, -SMALL))]
  }

  lemma MultipleOfAlternating(root: real -> real, x: real, k: real)
    requires IsRoot(root) && k != 0.0
    ensures HistoryCorrelation(root, Alternating(MIN_PERIODS, x), Alternating(MIN_PERIODS, Times(k, x)))
            == if Times(Abs(k), 20.0 * Times(x, x)) > 0.0000000001 then Some(if k > 0.0 then 1.0 else -1.0) else None
  {
    var xs, ys := Alternating(MIN_PERIODS, x), Alternating(MIN_PERIODS, Times(k, x));
    AlternatingMoves(x);
    AlternatingMoves(Times(k, x));
    forall i | 0 <= i < MIN_PERIODS ensures Newest(ys, MIN_PERIODS)[i] == Times(k, Newest(xs, MIN_PERIODS)[i]) + 0.0 {
      assert Times(k, -x) == -Times(k, x);
    }
    hide Alternating, Newest, Dot, Times;
    PerfectCorrelation(root, Newest(xs, MIN_PERIODS), Newest(ys, MIN_PERIODS), k, 0.0);
  }

  /**
   * The condition is needed. A moves against B and C, which hardly move and move together: their correlation is
   * undefined and stored as a reliable zero, so equal weights give a negative variance and no value at risk.
   */
  lemma UndefinedPairBreaksVar(root: real -> real, matrix: seq<Entry>, x: real, z: real)
    requires IsRoot(root) && x > 0.0 && z > 0.0
    requires Faithful(root, Opposed(), matrix) && CoversAll(matrix, Opposed().Keys)
    ensures SharesWindow(Opposed(), ["A", "B", "C"], MIN_PERIODS) && Distinct(["A", "B", "C"])
    ensures PortfolioVar(root, matrix, ["A", "B", "C"], [x * z, x * z, x * z], z) == None
  {
    hide IsRoot, Faithful, CoversAll, HistoryCorrelation, TripleForm, Variance;
    var assets, vs := ["A", "B", "C"], [x, x, x];
    assert assets[0][0] != assets[1][0] && assets[0][0] != assets[2][0] && assets[1][0] != assets[2][0];
    MultipleOfAlternating(root, 1.0, -SMALL);
    MultipleOfAlternating(root, -SMALL, 1.0);
    LinkIsRecomputation(root, Opposed(), matrix, assets, 0, 1);
    LinkIsRecomputation(root, Opposed(), matrix, assets, 0, 2);
    LinkIsRecomputation(root, Opposed(), matrix, assets, 1, 2);
    hide Link;
    ScaledWeights(x, x, x, z);
    TripleVariance(matrix, assets, vs);
    EqualWeights(x, -1.0, 0.0);
  }

  lemma EqualWeights(x: real, b: real, c: real)
    requires x > 0.0 && b <= 0.0 && c <= 0.0 && b + c <= -1.0
    ensures TripleForm(x, x, x, -1.0, b, c) < 0.0
  {
    TimesIsPositive(x, x);
    EqualForm(x, b, c);
    hide TripleForm, Times;
    CancelBySign(Times(x, x), 1.0 + 2.0 * b + 2.0 * c);
  }

  lemma CancelBySign(p: real, k: real)
    requires p > 0.0 && k < 0.0
    ensures p * k < 0.0
  {}

  lemma EqualForm(x: real, b: real, c: real)
    ensures TripleForm(x, x, x, -1.0, b, c) == Times(x, x) * (1.0 + 2.0 * b + 2.0 * c)
  {}

  // ---- Three histories seen over different windows ----

  /** Early returns ten times the late ones; the late ones are the second half. */
  function EarlyAndLate(early: real, late: real): (xs: seq<real>)
    ensures |xs| == 2 * MIN_PERIODS
  {
    Alternating(MIN_PERIODS, early) + Alternating(MIN_PERIODS, late)
  }

  lemma {:induction false} DotConcat(xs: seq<real>, ys: seq<real>, us: seq<real>, vs: seq<real>)
    requires |xs| == |us| && |ys| == |vs|
    ensures Dot(xs + ys, us + vs) == Dot(xs, us) + Dot(ys, vs)
  {
    if ys == [] {
      assert xs + ys == xs && us + vs == us;
    } else {
      var n := |ys| - 1;
      assert (xs + ys)[..|xs| + n] == xs + ys[..n] && (us + vs)[..|us| + n] == us + vs[..n];
      DotConcat(xs, ys[..n], us, vs[..n]);
    }
  }

  lemma EarlyAndLateMoves(early: real, late: real)
    ensures var xs := EarlyAndLate(early, late);
            && Newest(xs, MIN_PERIODS) == Alternating(MIN_PERIODS, -late)
            && Newest(xs, |xs|) == Moves(xs) == Alternating(MIN_PERIODS, -late) + Alternating(MIN_PERIODS, -early)
  {
    var xs := EarlyAndLate(early, late);
    assert Newest(xs, MIN_PERIODS) == Alternating(MIN_PERIODS, -late);
    assert Newest(xs, |xs|) == Alternating(MIN_PERIODS, -late) + Alternating(MIN_PERIODS, -early);
    SumConcat(Alternating(MIN_PERIODS, -late), Alternating(MIN_PERIODS, -early));
    AlternatingSums(MIN_PERIODS, -late);
    AlternatingSums(MIN_PERIODS, -early);
    assert Mean(Newest(xs, |xs|)) == 0.0;
    assert Moves(xs) == Newest(xs, |xs|);
  }

  /** A and C move together lately, but moved ten times as far apart before B was listed. */
  function Relisted(): map<Symbol, Returns> {
    map["A" := Hourly(EarlyAndLate(10.0, 1.0)),
        "B" := Hourly(Alternating(MIN_PERIODS, -1.0)),
        "C" := Hourly(EarlyAndLate(-10.0, 1.0))]
  }

  lemma OpposedLately(root: real -> real, early: real)
    requires IsRoot(root)
    ensures HistoryCorrelation(root, EarlyAndLate(early, 1.0), Alternating(MIN_PERIODS, -1.0)) == Some(-1.0)
  {
    var xs, ys := Alternating(MIN_PERIODS, -1.0), Alternating(MIN_PERIODS, 1.0);
    EarlyAndLateMoves(early, 1.0);
    AlternatingMoves(-1.0);
    AlternatingMoves(1.0);
    assert ys == Newest(xs, MIN_PERIODS);
    forall i | 0 <= i < MIN_PERIODS ensures ys[i] == Times(-1.0, xs[i]) + 0.0 {}
    hide Alternating, Newest, Dot, Times;
    PerfectCorrelation(root, xs, ys, -1.0, 0.0);
  }

  lemma {:induction false} OpposedDot(n: nat, x: real)
    ensures Dot(Alternating(n, -x), Alternating(n, x)) == -(n as real * Times(x, x))
  {
    if n > 0 {
      assert Alternating(n, x)[..n - 1] == Alternating(n - 1, x)
        && Alternating(n, -x)[..n - 1] == Alternating(n - 1, -x);
      OpposedDot(n - 1, x);
      assert Times(-x, x) == -Times(x, x) == Times(x, -x);
    }
  }

  lemma ApartBefore(root: real -> real)
    requires IsRoot(root)
    ensures HistoryCorrelation(root, EarlyAndLate(10.0, 1.0), EarlyAndLate(-10.0, 1.0)).Some?
    ensures HistoryCorrelation(root, EarlyAndLate(10.0, 1.0), EarlyAndLate(-10.0, 1.0)).value < 0.0
  {
    var near := Alternating(MIN_PERIODS, -1.0);
    var down, up := Alternating(MIN_PERIODS, -10.0), Alternating(MIN_PERIODS, 10.0);
    EarlyAndLateMoves(10.0, 1.0);
    EarlyAndLateMoves(-10.0, 1.0);
    AlternatingSums(MIN_PERIODS, -1.0);
    AlternatingSums(MIN_PERIODS, -10.0);
    AlternatingSums(MIN_PERIODS, 10.0);
    OpposedDot(MIN_PERIODS, 10.0);
    DotConcat(near, down, near, up);
    DotConcat(near, down, near, down);
    DotConcat(near, up, near, up);
    assert Times(-1.0, -1.0) == 1.0 && Times(10.0, 10.0) == 100.0 == Times(-10.0, -10.0);
    hide Dot, Alternating, Newest;
    assert Dot(near + down, near + up) == -1980.0;
    assert Dot(near + down, near + down) == 2020.0 == Dot(near + up, near + up);
    RootOfSquare(root, 2020.0);
  }

  /**
   * So is the common window. With every pair's correlation defined, A moving with C over the twenty returns they share
   * with B, but against it over all forty, and B against both, equal weights have no value at risk.
   */
  lemma UnequalWindowsBreakVar(root: real -> real, matrix: seq<Entry>, x: real, z: real)
    requires IsRoot(root) && x > 0.0 && z > 0.0
    requires Faithful(root, Relisted(), matrix) && CoversAll(matrix, Relisted().Keys)
    ensures var h := Relisted();
            && HistoryCorrelation(root, h["A"].values, h["B"].values).Some?
            && HistoryCorrelation(root, h["A"].values, h["C"].values).Some?
            && HistoryCorrelation(root, h["B"].values, h["C"].values).Some?
    ensures PortfolioVar(root, matrix, ["A", "B", "C"], [x * z, x * z, x * z], z) == None
  {
    hide IsRoot, Faithful, CoversAll, HistoryCorrelation, TripleForm, Variance;
    var assets, vs := ["A", "B", "C"], [x, x, x];
    assert assets[0][0] != assets[1][0] && assets[0][0] != assets[2][0] && assets[1][0] != assets[2][0];
    var a, b, c := Relisted()["A"].values, Relisted()["B"].values, Relisted()["C"].values;
    OpposedLately(root, 10.0);
    OpposedLately(root, -10.0);
    CorrelationInRange(root, b, c);
    ApartBefore(root);
    LinkIsRecomputation(root, Relisted(), matrix, assets, 0, 1);
    LinkIsRecomputation(root, Relisted(), matrix, assets, 0, 2);
    LinkIsRecomputation(root, Relisted(), matrix, assets, 1, 2);
    hide Link;
    ScaledWeights(x, x, x, z);
    TripleVariance(matrix, assets, vs);
    EqualWeights(x, Link(matrix, assets, 0, 2), -1.0);
  }
}
