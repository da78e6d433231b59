/** The multi-asset risk manager: histories, correlation cache and metrics (backtest/src/portfolio_risk.rs). */
module PortfolioRisk {
  import opened Reals
  import opened RollingWindows
  import opened Correlation
  import opened ValueAtRisk

  const HISTORY_LIMIT: nat := 120
  const DEFAULT_VOLATILITY := 0.2
  const Z_95 := 1.645
  const SHORTFALL_FACTOR := 1.18

  datatype Position = Position(quantity: real, entryPrice: real, currentPrice: real, unrealized: real, notional: real)

  datatype Returns = Returns(values: seq<real>, timestamps: seq<int>)

  datatype Metrics = Metrics(
    netDelta: real, grossExposure: real, valueAtRisk: Option<real>, shortfall: Option<real>,
    diversification: real, concentration: real, largestSharePct: real, stressedVar: real)
  {
    /** Value at risk within the stressed figure, diversification not below one, concentration within its bounds. */
    ghost predicate Coherent(assets: nat) {
      && (valueAtRisk.Some? ==> 0.0 <= valueAtRisk.value <= stressedVar)
      && (assets <= 2 ==> valueAtRisk.Some?)
      && diversification >= 1.0
      && 0.0 <= concentration && concentration * 100.0 <= largestSharePct <= 100.0
    }
  }

  const NO_METRICS := Metrics(0.0, 0.0, Some(0.0), Some(0.0), 1.0, 0.0, 0.0, 0.0)

  // ---- The correlation cache ----

  function EntryFor(root: real -> real, history: map<Symbol, Returns>, a: Symbol, b: Symbol): Entry
    requires a in history && b in history
  {
    var xs, ys := history[a].values, history[b].values;
    var n := if |xs| <= |ys| then |xs| else |ys|;
    var correlation := HistoryCorrelation(root, xs, ys);
    Entry(a, b, if correlation.Some? then correlation.value else 0.0, n, n >= MIN_PERIODS)
  }

  ghost predicate Faithful(root: real -> real, history: map<Symbol, Returns>, matrix: seq<Entry>) {
    forall i :: 0 <= i < |matrix| ==>
      var e := matrix[i];
      e.asset1 != e.asset2 && e.asset1 in history && e.asset2 in history
      && e == EntryFor(root, history, e.asset1, e.asset2)
  }

  ghost predicate Covers(matrix: seq<Entry>, a: Symbol, b: Symbol) {
    exists i :: 0 <= i < |matrix| && Matches(matrix[i], a, b)
  }

  ghost predicate CoversAll(matrix: seq<Entry>, assets: set<Symbol>) {
    forall a, b :: a in assets && b in assets && a != b ==> Covers(matrix, a, b)
  }

  lemma FaithfulAppend(root: real -> real, history: map<Symbol, Returns>, matrix: seq<Entry>, a: Symbol, b: Symbol)
    requires a in history && b in history && a != b
    requires Faithful(root, history, matrix)
    ensures Faithful(root, history, matrix + [EntryFor(root, history, a, b)])
  {}

  lemma CoversAppend(matrix: seq<Entry>, entry: Entry)
    ensures forall a, b :: Covers(matrix, a, b) ==> Covers(matrix + [entry], a, b)
    ensures Covers(matrix + [entry], entry.asset1, entry.asset2)
    ensures Covers(matrix + [entry], entry.asset2, entry.asset1)
  {
    var longer := matrix + [entry];
    assert Matches(longer[|matrix|], entry.asset1, entry.asset2)
      && Matches(longer[|matrix|], entry.asset2, entry.asset1);
    forall a, b | Covers(matrix, a, b) ensures Covers(longer, a, b) {
      var i :| 0 <= i < |matrix| && Matches(matrix[i], a, b);
      assert longer[i] == matrix[i];
    }
  }

  lemma EntryIsInRange(root: real -> real, history: map<Symbol, Returns>, a: Symbol, b: Symbol)
    requires IsRoot(root) && a in history && b in history
    ensures -1.0 <= EntryFor(root, history, a, b).correlation <= 1.0
    ensures EntryFor(root, history, b, a) == EntryFor(root, history, a, b).(asset1 := b, asset2 := a)
  {
    hide HistoryCorrelation, IsRoot;
    CorrelationInRange(root, history[a].values, history[b].values);
  }

  lemma FaithfulIsInRange(root: real -> real, history: map<Symbol, Returns>, matrix: seq<Entry>)
    requires IsRoot(root) && Faithful(root, history, matrix)
    ensures InRange(matrix)
  {
    hide EntryFor, IsRoot;
    forall i | 0 <= i < |matrix| ensures -1.0 <= matrix[i].correlation <= 1.0 {
      EntryIsInRange(root, history, matrix[i].asset1, matrix[i].asset2);
    }
  }

  /**
   * Looking a pair up in a faithful cache that covers it gives what recomputing from the two histories gives,
   * in either order of the names; an undefined correlation of long enough histories reads as zero.
   */
  lemma {:induction false} LookupIsRecomputation(
    root: real -> real, history: map<Symbol, Returns>, matrix: seq<Entry>, a: Symbol, b: Symbol)
    requires IsRoot(root) && a in history && b in history
    requires Faithful(root, history, matrix) && Covers(matrix, a, b)
    ensures var entry := EntryFor(root, history, a, b);
            Lookup(matrix, a, b) == if entry.reliable then Some(entry.correlation) else None
  {
    hide EntryFor, IsRoot;
    var head, rest := matrix[0], matrix[1..];
    if Matches(head, a, b) {
      EntryIsInRange(root, history, a, b);
      var entry := EntryFor(root, history, a, b);
      assert head.correlation == entry.correlation && head.reliable == entry.reliable;
      if !entry.reliable {
        NothingReliable(root, history, rest, a, b);
      }
    } else {
      assert Covers(rest, a, b) by {
        var i :| 0 <= i < |matrix| && Matches(matrix[i], a, b);
        assert rest[i - 1] == matrix[i];
      }
      LookupIsRecomputation(root, history, rest, a, b);
    }
  }

  lemma {:induction false} NothingReliable(
    root: real -> real, history: map<Symbol, Returns>, matrix: seq<Entry>, a: Symbol, b: Symbol)
    requires IsRoot(root) && a in history && b in history
    requires Faithful(root, history, matrix) && !EntryFor(root, history, a, b).reliable
    ensures Lookup(matrix, a, b) == None
  {
    hide EntryFor, IsRoot;
    if matrix != [] {
      EntryIsInRange(root, history, a, b);
      NothingReliable(root, history, matrix[1..], a, b);
    }
  }

  // ---- Volatility ----

  function SampleVolatility(root: real -> real, xs: seq<real>): real {
    if |xs| < 2 then 0.0
    else root(Dot(Deviations(xs), Deviations(xs)) / (|xs| - 1) as real)
  }

  function AnnualVolatility(root: real -> real, xs: seq<real>): real {
    Times(SampleVolatility(root, xs), root(365.0))
  }

  lemma VolatilityIsNonNegative(root: real -> real, xs: seq<real>)
    requires IsRoot(root)
    ensures AnnualVolatility(root, xs) >= 0.0
  {
    if |xs| >= 2 {
      DotOfSelf(Deviations(xs));
      NonNegativeQuotient(Dot(Deviations(xs), Deviations(xs)), (|xs| - 1) as real);
    }
    ProductOfNonNegatives(SampleVolatility(root, xs), root(365.0));
  }

  // ---- Metrics ----

  function IndividualVar(root: real -> real, notional: real, volatility: real): real
    requires IsRoot(root)
  {
    RootIsPositive(root, 365.0);
    notional * (volatility / root(365.0)) * Z_95
  }

  lemma IndividualVarIsNonNegative(root: real -> real, notional: real, volatility: real)
    requires IsRoot(root) && notional >= 0.0 && volatility >= 0.0
    ensures IndividualVar(root, notional, volatility) >= 0.0
  {}

  /** `order` lists each member of `keys` once. */
  ghost predicate Enumerates(order: seq<Symbol>, keys: set<Symbol>) {
    && (forall s :: s in order <==> s in keys)
    && forall i, j :: 0 <= i < j < |order| ==> order[i] != order[j]
  }

  ghost predicate PairsCovered(matrix: seq<Entry>, symbols: seq<Symbol>, i: nat, j: nat) {
    forall p, q :: 0 <= p < q < |symbols| && (p < i || (p == i && q < j)) ==>
      Covers(matrix, symbols[p], symbols[q]) && Covers(matrix, symbols[q], symbols[p])
  }

  lemma EmptyIsFaithful(root: real -> real, history: map<Symbol, Returns>)
    ensures Faithful(root, history, [])
  {}

  lemma PairsCoveredAppend(matrix: seq<Entry>, symbols: seq<Symbol>, i: nat, j: nat, entry: Entry)
    requires i < j < |symbols| && PairsCovered(matrix, symbols, i, j)
    requires entry.asset1 == symbols[i] && entry.asset2 == symbols[j]
    ensures PairsCovered(matrix + [entry], symbols, i, j + 1)
  {
    hide Covers;
    CoversAppend(matrix, entry);
  }

  lemma AllPairsCovered(matrix: seq<Entry>, symbols: seq<Symbol>, keys: set<Symbol>)
    requires Enumerates(symbols, keys) && PairsCovered(matrix, symbols, |symbols|, |symbols| + 1)
    ensures CoversAll(matrix, keys)
  {}

  /** The asset has enough returns for its volatility and correlations to count. */
  predicate Long(history: map<Symbol, Returns>, s: Symbol) {
    s in history && |history[s].values| >= MIN_PERIODS
  }

  /** Of the given symbols, those with enough returns have the volatility of their history; all else is as it was. */
  ghost predicate Refreshed(
    root: real -> real, history: map<Symbol, Returns>, symbols: seq<Symbol>, was: map<Symbol, real>,
    now: map<Symbol, real>)
  {
    && (forall s :: s in now <==> s in was || (s in symbols && Long(history, s)))
    && (forall s :: s in now ==>
          now[s] == if s in symbols && Long(history, s) then AnnualVolatility(root, history[s].values) else was[s])
  }

  lemma NothingRefreshed(root: real -> real, history: map<Symbol, Returns>, was: map<Symbol, real>)
    ensures Refreshed(root, history, [], was, was)
  {}

  lemma RefreshedNext(
    root: real -> real, history: map<Symbol, Returns>, symbols: seq<Symbol>, s: Symbol,
    was: map<Symbol, real>, now: map<Symbol, real>)
    requires Refreshed(root, history, symbols, was, now)
    ensures var next := if Long(history, s) then now[s := AnnualVolatility(root, history[s].values)] else now;
            Refreshed(root, history, symbols + [s], was, next)
  {
    hide AnnualVolatility;
  }

  function Holdings(positions: map<Symbol, Position>, order: seq<Symbol>): (held: seq<Position>)
    requires forall s :: s in order ==> s in positions
    ensures |held| == |order|
  {
    seq(|order|, i requires 0 <= i < |order| => assert order[i] in order; positions[order[i]])
  }

  function Notionals(held: seq<Position>): (xs: seq<real>)
    ensures |xs| == |held|
  {
    seq(|held|, i requires 0 <= i < |held| => held[i].notional)
  }

  function Deltas(held: seq<Position>): (xs: seq<real>)
    ensures |xs| == |held|
  {
    seq(|held|, i requires 0 <= i < |held| => held[i].quantity * held[i].currentPrice)
  }

  function VolatilityOf(volatilities: map<Symbol, real>, symbol: Symbol): real {
    if symbol in volatilities then volatilities[symbol] else DEFAULT_VOLATILITY
  }

  function IndividualVars(
    root: real -> real, held: seq<Position>, volatilities: map<Symbol, real>, order: seq<Symbol>): (xs: seq<real>)
    requires IsRoot(root) && |held| == |order|
    ensures |xs| == |held|
  {
    seq(|held|, i requires 0 <= i < |held| =>
      IndividualVar(root, held[i].notional, VolatilityOf(volatilities, order[i])))
  }

  function Shortfall(valueAtRisk: Option<real>): Option<real> {
    if valueAtRisk.Some? then Some(valueAtRisk.value * SHORTFALL_FACTOR) else None
  }

  function Diversification(valueAtRisk: Option<real>, stressed: real): real {
    if valueAtRisk.Some? && valueAtRisk.value > 0.0 then stressed / valueAtRisk.value else 1.0
  }

  function MetricsOf(
    root: real -> real, matrix: seq<Entry>, held: seq<Position>, volatilities: map<Symbol, real>,
    order: seq<Symbol>): Metrics
    requires IsRoot(root) && |held| == |order|
  {
    if held == [] then NO_METRICS
    else
      var notionals, vars := Notionals(held), IndividualVars(root, held, volatilities, order);
      var gross, stressed := Sum(notionals), Sum(vars);
      var valueAtRisk := PortfolioVar(root, matrix, order, vars, Z_95);
      Metrics(Sum(Deltas(held)), gross, valueAtRisk, Shortfall(valueAtRisk), Diversification(valueAtRisk, stressed),
              Herfindahl(notionals, gross), LargestShare(notionals, gross) * 100.0, stressed)
  }

  ghost predicate MarkedAtValidPrices(held: seq<Position>) {
    forall i :: 0 <= i < |held| ==> held[i].notional >= 0.0
  }

  lemma NoMetricsAreCoherent()
    ensures NO_METRICS.Coherent(0)
  {}

  lemma DiversificationAtLeastOne(valueAtRisk: Option<real>, stressed: real)
    requires valueAtRisk.Some? ==> valueAtRisk.value <= stressed
    ensures Diversification(valueAtRisk, stressed) >= 1.0
  {}

  /** Whatever the histories were, the reported figures are in their ranges and in order. */
  lemma MetricsAreCoherent(
    root: real -> real, matrix: seq<Entry>, held: seq<Position>, volatilities: map<Symbol, real>, order: seq<Symbol>)
    requires IsRoot(root) && |held| == |order| && InRange(matrix) && MarkedAtValidPrices(held)
    requires forall s :: s in volatilities ==> volatilities[s] >= 0.0
    ensures MetricsOf(root, matrix, held, volatilities, order).Coherent(|order|)
  {
    if held != [] {
      var notionals, vars := Notionals(held), IndividualVars(root, held, volatilities, order);
      forall i | 0 <= i < |vars| ensures vars[i] >= 0.0 {
        IndividualVarIsNonNegative(root, held[i].notional, VolatilityOf(volatilities, order[i]));
      }
      assert NonNegative(notionals) && NonNegative(vars);
      var valueAtRisk := PortfolioVar(root, matrix, order, vars, Z_95);
      CoherentFigures(root, matrix, order, notionals, vars);
      DiversificationAtLeastOne(valueAtRisk, Sum(vars));
    }
  }

  lemma CoherentFigures(
    root: real -> real, matrix: seq<Entry>, order: seq<Symbol>, notionals: seq<real>, vars: seq<real>)
    requires IsRoot(root) && |vars| == |order| && InRange(matrix) && NonNegative(notionals) && NonNegative(vars)
    ensures var r := PortfolioVar(root, matrix, order, vars, Z_95);
            (r.Some? ==> 0.0 <= r.value <= Sum(vars)) && (|order| <= 2 ==> r.Some?)
    ensures 0.0 <= Herfindahl(notionals, Sum(notionals)) <= LargestShare(notionals, Sum(notionals)) <= 1.0
  {
    hide IsRoot, InRange, NonNegative, Herfindahl, LargestShare;
    StressedVarIsTheWorst(root, matrix, order, vars, Z_95);
    if |order| == 2 {
      TwoAssetsAlwaysHaveVar(root, matrix, order, vars, Z_95);
    }
    ConcentrationBounds(notionals);
    SquareIsNonNegative(LargestShare(notionals, Sum(notionals)));
  }

  // ---- One asset ----

  lemma Deannualised(volatility: real, year: real)
    requires year > 0.0
    ensures Times(volatility, year) / year == volatility
  {}

  /**
   * A single held asset whose volatility is that of its history has 1.645 times the volatility of its own observations
   * at risk on its notional: annualising and going back to one day cancel.
   */
  lemma SingleAssetVar(
    root: real -> real, matrix: seq<Entry>, position: Position, symbol: Symbol, xs: seq<real>,
    volatilities: map<Symbol, real>)
    requires IsRoot(root) && symbol in volatilities && volatilities[symbol] == AnnualVolatility(root, xs)
    ensures var m := MetricsOf(root, matrix, [position], volatilities, [symbol]);
            && m.valueAtRisk == Some(position.notional * SampleVolatility(root, xs) * 1.645)
            && m.stressedVar == position.notional * SampleVolatility(root, xs) * 1.645
            && m.shortfall == Some(position.notional * SampleVolatility(root, xs) * 1.645 * 1.18)
  {
    hide SampleVolatility, IsRoot, Times, Herfindahl, LargestShare;
    RootIsPositive(root, 365.0);
    Deannualised(SampleVolatility(root, xs), root(365.0));
    var vars := IndividualVars(root, [position], volatilities, [symbol]);
    SumOfOne(vars, vars[0]);
    var daily := volatilities[symbol] / root(365.0);
    assert [position][0] == position && [symbol][0] == symbol;
    assert vars[0] == position.notional * daily * Z_95;
    SameProduct(position.notional, position.notional, daily, SampleVolatility(root, xs));
    var figure := position.notional * SampleVolatility(root, xs) * 1.645;
    assert vars[0] == figure;
    assert PortfolioVar(root, matrix, [symbol], vars, Z_95) == Some(figure);
    assert MetricsOf(root, matrix, [position], volatilities, [symbol]).valueAtRisk == Some(figure);
  }

  /**
   * The same asset without a volatility is taken at twenty percent a year; its delta is its value at the current price.
   */
  lemma UnknownVolatility(root: real -> real, matrix: seq<Entry>, position: Position, symbol: Symbol)
    requires IsRoot(root)
    ensures root(365.0) > 0.0
    ensures var m := MetricsOf(root, matrix, [position], map[], [symbol]);
            && m.valueAtRisk == Some(position.notional * (0.2 / root(365.0)) * 1.645)
            && m.netDelta == position.quantity * position.currentPrice && m.grossExposure == position.notional
  {
    RootIsPositive(root, 365.0);
    hide IsRoot, Herfindahl, LargestShare;
    assert [position][0] == position && [symbol][0] == symbol;
    var vars := IndividualVars(root, [position], map[], [symbol]);
    SumOfOne(vars, vars[0]);
    var deltas := Deltas([position]);
    assert deltas[0] == position.quantity * position.currentPrice;
    SumOfOne(deltas, deltas[0]);
    SumOfOne(Notionals([position]), position.notional);
    var figure := position.notional * (0.2 / root(365.0)) * 1.645;
    assert vars[0] == figure;
    assert PortfolioVar(root, matrix, [symbol], vars, Z_95) == Some(figure);
  }

  /** The diversification ratio times the value at risk is the stressed figure; without one it is one. */
  lemma DiversificationIsRatio(valueAtRisk: Option<real>, stressed: real)
    ensures var d := Diversification(valueAtRisk, stressed);
            if valueAtRisk.Some? && valueAtRisk.value > 0.0 then Times(d, valueAtRisk.value) == stressed else d == 1.0
  {}

  /** Fewer than two observations do not vary. */
  lemma TooFewToVary(root: real -> real, xs: seq<real>)
    requires |xs| < 2
    ensures SampleVolatility(root, xs) == 0.0 == AnnualVolatility(root, xs)
  {
    TimesZero(0.0, root(365.0));
  }

  /** The volatility of two observations, squared: half the square of their difference. */
  lemma VolatilityOfTwo(root: real -> real, x: real, y: real)
    requires IsRoot(root)
    ensures var v := SampleVolatility(root, [x, y]); v >= 0.0 && 2.0 * Times(v, v) == Times(x - y, x - y)
  {
    SumOfTwo([x, y], x, y);
    var ds := Deviations([x, y]);
    assert ds == [(x - y) / 2.0, (y - x) / 2.0];
    DotStart(ds, ds);
    DotPrefix(ds, ds, 0);
    DotPrefix(ds, ds, 1);
    assert ds[..2] == ds;
    HalfSquares(x, y);
    DotOfSelf(ds);
    hide Deviations, Dot;
    assert root(Dot(ds, ds)) * root(Dot(ds, ds)) == Dot(ds, ds);
  }

  lemma HalfSquares(x: real, y: real)
    ensures 2.0 * (Times((x - y) / 2.0, (x - y) / 2.0) + Times((y - x) / 2.0, (y - x) / 2.0)) == Times(x - y, x - y)
  {}

  /** Drops the oldest observations until the rest fit the limit. */
  method Trim(values: seq<real>, timestamps: seq<int>) returns (keptValues: seq<real>, keptTimestamps: seq<int>)
    requires |values| == |timestamps|
    ensures keptValues == Latest(values, HISTORY_LIMIT) && keptTimestamps == Latest(timestamps, HISTORY_LIMIT)
    ensures |keptValues| == if |values| > 120 then 120 else |values|
  {
    keptValues, keptTimestamps := values, timestamps;
    ghost var dropped := 0;
    while |keptValues| > HISTORY_LIMIT
      invariant 0 <= dropped <= |values|
      invariant dropped > 0 ==> |values| - dropped >= HISTORY_LIMIT
      invariant keptValues == values[dropped..] && keptTimestamps == timestamps[dropped..]
    {
      keptValues, keptTimestamps := keptValues[1..], keptTimestamps[1..];
      dropped := dropped + 1;
    }
  }

  class RiskManager {
    const root: real -> real
    var positions: map<Symbol, Position>
    var history: map<Symbol, Returns>
    var matrix: seq<Entry>
    var volatilities: map<Symbol, real>

    /** Held between calls however the methods are interleaved. */
    ghost predicate Valid()
      reads this
    {
      && IsRoot(root)
      && InRange(matrix)
      && (forall s :: s in history ==> |history[s].values| == |history[s].timestamps| <= HISTORY_LIMIT)
      && (forall s :: s in volatilities ==> volatilities[s] >= 0.0)
    }

    constructor (root: real -> real)
      requires IsRoot(root)
      ensures Valid() && this.root == root
      ensures positions == map[] && history == map[] && matrix == [] && volatilities == map[]
    {
      this.root := root;
      positions, history, matrix, volatilities := map[], map[], [], map[];
    }

    method UpdatePosition(symbol: Symbol, quantity: real, entryPrice: real, currentPrice: real)
      requires Valid()
      modifies this`positions
      ensures Valid()
      ensures positions == old(positions)[symbol := Position(quantity, entryPrice, currentPrice,
                                            quantity * (currentPrice - entryPrice), Abs(quantity) * currentPrice)]
    {
      positions := positions[symbol := Position(quantity, entryPrice, currentPrice,
                                                quantity * (currentPrice - entryPrice), Abs(quantity) * currentPrice)];
    }

    /** An asset's history is the latest window of everything added for it. */
    method AddReturn(symbol: Symbol, value: real, timestamp: int)
      requires Valid()
      modifies this`history
      ensures Valid()
      ensures var before := if symbol in old(history) then old(history)[symbol] else Returns([], []);
              history == old(history)[symbol := Returns(Latest(before.values + [value], HISTORY_LIMIT),
                                                        Latest(before.timestamps + [timestamp], HISTORY_LIMIT))]
    {
      hide IsRoot, InRange, Latest;
      var entry := if symbol in history then history[symbol] else Returns([], []);
      var values, timestamps := Trim(entry.values + [value], entry.timestamps + [timestamp]);
      history := history[symbol := Returns(values, timestamps)];
    }

    /** Rebuilds the cache from the current histories; `symbols` is the iteration order of the history map. */
    method UpdateCorrelationMatrix(symbols: seq<Symbol>)
      requires Valid() && Enumerates(symbols, history.Keys)
      modifies this`matrix, this`volatilities
      ensures Valid()
      ensures Faithful(root, history, matrix) && CoversAll(matrix, history.Keys)
      ensures Refreshed(root, history, symbols, old(volatilities), volatilities)
    {
      hide Faithful, CoversAll, Refreshed;
      RebuildMatrix(symbols);
      RefreshVolatilities(symbols);
    }

    method RebuildMatrix(symbols: seq<Symbol>)
      requires Valid() && Enumerates(symbols, history.Keys)
      modifies this`matrix
      ensures Valid()
      ensures Faithful(root, history, matrix) && CoversAll(matrix, history.Keys)
    {
      hide IsRoot, HistoryCorrelation, Covers, Faithful;
      matrix := [];
      assert Faithful(root, history, matrix) by { EmptyIsFaithful(root, history); }
      for i := 0 to |symbols|
        invariant Faithful(root, history, matrix) && PairsCovered(matrix, symbols, i, i + 1)
      {
        for j := i + 1 to |symbols|
          invariant Faithful(root, history, matrix) && PairsCovered(matrix, symbols, i, j)
        {
          assert symbols[i] in symbols && symbols[j] in symbols;
          var entry := EntryFor(root, history, symbols[i], symbols[j]);
          FaithfulAppend(root, history, matrix, symbols[i], symbols[j]);
          PairsCoveredAppend(matrix, symbols, i, j, entry);
          matrix := matrix + [entry];
        }
      }
      FaithfulIsInRange(root, history, matrix);
      AllPairsCovered(matrix, symbols, history.Keys);
    }

    method RefreshVolatilities(symbols: seq<Symbol>)
      requires Valid() && Enumerates(symbols, history.Keys)
      modifies this`volatilities
      ensures Valid()
      ensures Refreshed(root, history, symbols, old(volatilities), volatilities)
    {
      hide IsRoot, AnnualVolatility, InRange, Refreshed;
      assert Refreshed(root, history, symbols[..0], volatilities, volatilities) by {
        NothingRefreshed(root, history, volatilities);
      }
      for i := 0 to |symbols|
        invariant Valid()
        invariant Refreshed(root, history, symbols[..i], old(volatilities), volatilities)
      {
        var s := symbols[i];
        assert s in symbols && symbols[..i + 1] == symbols[..i] + [s];
        RefreshedNext(root, history, symbols[..i], s, old(volatilities), volatilities);
        if |history[s].values| >= MIN_PERIODS {
          VolatilityIsNonNegative(root, history[s].values);
          volatilities := volatilities[s := AnnualVolatility(root, history[s].values)];
        }
      }
      assert symbols[..|symbols|] == symbols;
    }

    /** Portfolio metrics; `order` is the iteration order of the positions map. */
    method CalculateRiskMetrics(order: seq<Symbol>) returns (m: Metrics)
      requires Valid() && Enumerates(order, positions.Keys)
      ensures m == MetricsOf(root, matrix, Holdings(positions, order), volatilities, order)
      ensures MarkedAtValidPrices(Holdings(positions, order)) ==> m.Coherent(|order|)
    {
      hide PortfolioVar, IndividualVar, Metrics.Coherent;
      var held := Holdings(positions, order);
      if |order| == 0 {
        assert MetricsOf(root, matrix, held, volatilities, order) == NO_METRICS;
        assert NO_METRICS.Coherent(0) by { NoMetricsAreCoherent(); }
        return NO_METRICS;
      }
      var netDelta, vars := 0.0, [];
      for i := 0 to |order|
        invariant netDelta == Sum(Deltas(held)[..i])
        invariant vars == IndividualVars(root, held, volatilities, order)[..i]
      {
        assert order[i] in order;
        var position := positions[order[i]];
        SumPrefix(Deltas(held), i);
        netDelta := netDelta + position.quantity * position.currentPrice;
        vars := vars + [IndividualVar(root, position.notional, VolatilityOf(volatilities, order[i]))];
      }
      assert Deltas(held)[..|order|] == Deltas(held);
      assert vars == IndividualVars(root, held, volatilities, order);
      var notionals := Notionals(held);
      var gross, stressed := Sum(notionals), Sum(vars);
      var valueAtRisk := CalculatePortfolioVar(root, matrix, order, vars, Z_95);
      m := Metrics(netDelta, gross, valueAtRisk, Shortfall(valueAtRisk), Diversification(valueAtRisk, stressed),
                   Herfindahl(notionals, gross), LargestShare(notionals, gross) * 100.0, stressed);
      if MarkedAtValidPrices(held) {
        MetricsAreCoherent(root, matrix, held, volatilities, order);
      }
    }
  }
}
