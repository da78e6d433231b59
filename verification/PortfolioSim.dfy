/** The multi-symbol simulator built on the candle simulator's contract (backtest/src/portfolio_simulation.rs). */
module PortfolioSim {
  import opened Reals
  import opened CandleLedger
  import opened CandleSim
  import CandleEngine

  /** One symbol: its signals and bars (signals may be missing), its capital share and its simulator settings. */
  datatype Holding = Holding(symbol: string, feed: Option<Feed>, weight: real, cfg: Config)

  datatype SymbolResult = SymbolResult(symbol: string, pnl: real, wins: nat, trades: nat, winRate: real, fees: real,
                                       capital: real, finalEquity: real, curve: seq<real>)

  datatype Penalty = Penalty(enabled: bool, impactBps: real, threshold: real)

  datatype PortfolioResult = PortfolioResult(symbols: seq<SymbolResult>, totalPnl: real, trades: nat, winRate: real,
                                             fees: real, curve: seq<real>, finalEquity: real)

  function Pnls(rs: seq<SymbolResult>): seq<real> {
    seq(|rs|, i requires 0 <= i < |rs| => rs[i].pnl)
  }

  function Finals(rs: seq<SymbolResult>): seq<real> {
    seq(|rs|, i requires 0 <= i < |rs| => rs[i].finalEquity)
  }

  function Allocations(rs: seq<SymbolResult>): seq<real> {
    seq(|rs|, i requires 0 <= i < |rs| => rs[i].capital)
  }

  function LastPoints(rs: seq<SymbolResult>): seq<real>
    requires forall i :: 0 <= i < |rs| ==> rs[i].curve != []
  {
    seq(|rs|, i requires 0 <= i < |rs| => Last(rs[i].curve))
  }

  function Last(curve: seq<real>): real
    requires curve != []
  {
    curve[|curve| - 1]
  }

  function Share(initial: real, h: Holding): real {
    initial * h.weight
  }

  /** The simulator settings of a holding that was given `capital`. */
  function Funded(h: Holding, capital: real): Config {
    h.cfg.(initialCapital := capital, trackCurve := true, earlyTerm := None)
  }

  ghost predicate Simulable(h: Holding, capital: real) {
    h.feed.Some? ==> h.feed.value.Valid() && (h.feed.value.Length() > 0 ==> Sane(Funded(h, capital), h.feed.value))
  }

  function Simulated(cfg: Config, feed: Feed): CandleEngine.Outcome
    requires feed.Valid()
  {
    if feed.Length() == 0 then CandleEngine.EmptyReport(cfg) else CandleEngine.Report(cfg, Simulate(cfg, feed))
  }

  /** A tracked run's curve ends at the capital it was given plus its total profit. */
  lemma CurveEndsAtCapitalPlusPnl(cfg: Config, feed: Feed)
    requires feed.Valid() && cfg.trackCurve && (feed.Length() > 0 ==> Sane(cfg, feed))
    ensures var r := Simulated(cfg, feed);
            r.equityCurve != [] && Last(r.equityCurve) == cfg.initialCapital + r.totalPnl
  {
    hide Simulate, Sane, Sum, Tallied, CandleEngine.WinRate, CandleEngine.ProfitFactor;
    if feed.Length() > 0 {
      RunBalances(cfg, feed);
    }
  }

  /** Final equity and profit agree, whatever was later charged to both. */
  predicate Reconciled(r: SymbolResult) {
    r.finalEquity - r.capital == r.pnl
  }

  predicate FreshlyRun(r: SymbolResult) {
    Reconciled(r) && r.curve != [] && r.finalEquity == Last(r.curve) && r.wins <= r.trades
    && RatedWins(r) == r.wins as real
  }

  lemma WinRateTimesTrades(stats: Stats)
    ensures CandleEngine.WinRate(stats) * (stats.wins + stats.losses) as real == stats.wins as real
  {}

  /** What a holding's run reports; its final equity is the last point of its curve. */
  function ResultOf(h: Holding, feed: Feed, capital: real): SymbolResult
    requires feed.Valid()
  {
    var o := Simulated(Funded(h, capital), feed);
    SymbolResult(h.symbol, o.totalPnl, o.stats.wins, o.trades, o.winRate, o.stats.commission, capital,
                 if o.equityCurve == [] then capital else Last(o.equityCurve), o.equityCurve)
  }

  predicate AllFed(holdings: seq<Holding>) {
    forall i :: 0 <= i < |holdings| && holdings[i].feed.Some? ==> holdings[i].feed.value.Valid()
  }

  /** The results of the holdings that have signals, in order. */
  function Results(initial: real, holdings: seq<Holding>): seq<SymbolResult>
    requires AllFed(holdings)
  {
    if holdings == [] then []
    else
      var h := holdings[|holdings| - 1];
      Results(initial, holdings[..|holdings| - 1])
      + if h.feed.Some? then [ResultOf(h, h.feed.value, Share(initial, h))] else []
  }

  method RunHolding(h: Holding, feed: Feed, capital: real) returns (r: SymbolResult)
    requires h.feed == Some(feed) && Simulable(h, capital)
    ensures r == ResultOf(h, feed, capital) && FreshlyRun(r)
  {
    hide Sane, Simulate, CandleEngine.WinRate;
    var outcome := CandleEngine.Run(Funded(h, capital), feed);
    CurveEndsAtCapitalPlusPnl(Funded(h, capital), feed);
    WinRateTimesTrades(outcome.stats);
    var finalEquity := Last(outcome.equityCurve);
    return SymbolResult(h.symbol, outcome.totalPnl, outcome.stats.wins, outcome.trades, outcome.winRate,
                        outcome.stats.commission, capital, finalEquity, outcome.equityCurve);
  }

  /** Half of a pair's penalty, charged to each side. */
  function HalfPenalty(p: Penalty, correlation: real, a: SymbolResult, b: SymbolResult): real {
    correlation * p.impactBps / 10000.0 * Min(a.capital, b.capital) * 0.5
  }

  function Charge(r: SymbolResult, amount: real): SymbolResult {
    r.(pnl := r.pnl - amount, finalEquity := r.finalEquity - amount)
  }

  /** Same symbols, capital and curves, profit and final equity moved by the same amount. */
  predicate ChargedAlike(before: SymbolResult, after: SymbolResult) {
    after == before.(pnl := after.pnl, finalEquity := after.finalEquity)
    && after.finalEquity - after.pnl == before.finalEquity - before.pnl
  }

  lemma ChargeMovesSum(rs: seq<SymbolResult>, i: nat, amount: real)
    requires i < |rs|
    ensures Sum(Pnls(rs[i := Charge(rs[i], amount)])) == Sum(Pnls(rs)) - amount
  {
    assert Pnls(rs[i := Charge(rs[i], amount)]) == Pnls(rs)[i := rs[i].pnl - amount];
    SumUpdate(Pnls(rs), i, rs[i].pnl - amount);
  }

  /** Both sides of a pair pay half its penalty when their equity curves correlate above the threshold. */
  function ChargePair(
    p: Penalty, correlate: (seq<real>, seq<real>) -> real, rs: seq<SymbolResult>, i: nat, j: nat)
    : (r: seq<SymbolResult>)
    requires i < j < |rs|
    ensures |r| == |rs|
  {
    var correlation := correlate(rs[i].curve, rs[j].curve);
    if correlation > p.threshold then
      var half := HalfPenalty(p, correlation, rs[i], rs[j]);
      rs[i := Charge(rs[i], half)][j := Charge(rs[j], half)]
    else rs
  }

  /** The pairs of holding `i` with the holdings after it and before `j`. */
  function ChargeRow(
    p: Penalty, correlate: (seq<real>, seq<real>) -> real, rs: seq<SymbolResult>, i: nat, j: nat)
    : (r: seq<SymbolResult>)
    requires i < |rs| && j <= |rs|
    ensures |r| == |rs|
  {
    if j <= i + 1 then rs else ChargePair(p, correlate, ChargeRow(p, correlate, rs, i, j - 1), i, j - 1)
  }

  /** All pairs of the first `i` holdings with later ones. */
  function ChargeRows(
    p: Penalty, correlate: (seq<real>, seq<real>) -> real, rs: seq<SymbolResult>, i: nat): (r: seq<SymbolResult>)
    requires i <= |rs|
    ensures |r| == |rs|
  {
    if i == 0 then rs else ChargeRow(p, correlate, ChargeRows(p, correlate, rs, i - 1), i - 1, |rs|)
  }

  function Penalised(p: Penalty, correlate: (seq<real>, seq<real>) -> real, rs: seq<SymbolResult>): seq<SymbolResult> {
    if !p.enabled || |rs| < 2 then rs else ChargeRows(p, correlate, rs, |rs|)
  }

  ghost predicate AllChargedAlike(before: seq<SymbolResult>, after: seq<SymbolResult>) {
    |before| == |after| && forall i :: 0 <= i < |before| ==> ChargedAlike(before[i], after[i])
  }

  predicate PenaltyIsNonNegative(p: Penalty, rs: seq<SymbolResult>) {
    p.threshold >= 0.0 && p.impactBps >= 0.0 && forall i :: 0 <= i < |rs| ==> rs[i].capital >= 0.0
  }

  /**
   * A charge moves a holding's profit and final equity together; no charge is negative when settings and capital are
   * not.
   */
  ghost predicate FairlyCharged(p: Penalty, before: seq<SymbolResult>, after: seq<SymbolResult>) {
    && AllChargedAlike(before, after)
    && (PenaltyIsNonNegative(p, before) ==> Sum(Pnls(after)) <= Sum(Pnls(before)))
  }

  lemma PairIsFair(
    p: Penalty, correlate: (seq<real>, seq<real>) -> real, before: seq<SymbolResult>, rs: seq<SymbolResult>, i: nat,
    j: nat)
    requires i < j < |rs| && FairlyCharged(p, before, rs)
    ensures FairlyCharged(p, before, ChargePair(p, correlate, rs, i, j))
  {
    hide Sum, HalfPenalty;
    var correlation := correlate(rs[i].curve, rs[j].curve);
    if correlation > p.threshold {
      var half := HalfPenalty(p, correlation, rs[i], rs[j]);
      HalfPenaltyNonNegative(p, correlation, rs[i], rs[j]);
      var once := rs[i := Charge(rs[i], half)];
      ChargeMovesSum(rs, i, half);
      ChargeMovesSum(once, j, half);
      assert before[i].capital == rs[i].capital && before[j].capital == rs[j].capital;
    }
  }

  lemma {:induction false} RowIsFair(
    p: Penalty, correlate: (seq<real>, seq<real>) -> real, before: seq<SymbolResult>, rs: seq<SymbolResult>, i: nat,
    j: nat)
    requires i < |rs| && j <= |rs| && FairlyCharged(p, before, rs)
    ensures FairlyCharged(p, before, ChargeRow(p, correlate, rs, i, j))
  {
    hide FairlyCharged, ChargePair;
    if j > i + 1 {
      RowIsFair(p, correlate, before, rs, i, j - 1);
      PairIsFair(p, correlate, before, ChargeRow(p, correlate, rs, i, j - 1), i, j - 1);
    }
  }

  lemma {:induction false} RowsAreFair(
    p: Penalty, correlate: (seq<real>, seq<real>) -> real, rs: seq<SymbolResult>, i: nat)
    requires i <= |rs|
    ensures FairlyCharged(p, rs, ChargeRows(p, correlate, rs, i))
  {
    if i > 0 {
      hide FairlyCharged, ChargePair;
      RowsAreFair(p, correlate, rs, i - 1);
      RowIsFair(p, correlate, rs, ChargeRows(p, correlate, rs, i - 1), i - 1, |rs|);
    }
  }

  /** Penalties take from profit and final equity alike, leave everything else as it was, and never pay out. */
  lemma PenaltiesAreFair(p: Penalty, correlate: (seq<real>, seq<real>) -> real, rs: seq<SymbolResult>)
    ensures FairlyCharged(p, rs, Penalised(p, correlate, rs))
  {
    hide FairlyCharged, ChargeRow;
    RowsAreFair(p, correlate, rs, 0);
    RowsAreFair(p, correlate, rs, |rs|);
  }

  /** Charges every pair of holdings whose equity curves correlate above the threshold, in place. */
  method ApplyPenalties(p: Penalty, correlate: (seq<real>, seq<real>) -> real, rs: seq<SymbolResult>)
    returns (charged: seq<SymbolResult>)
    ensures charged == Penalised(p, correlate, rs)
  {
    charged := rs;
    if !p.enabled || |rs| < 2 {
      return;
    }
    for i := 0 to |rs|
      invariant |charged| == |rs| && charged == ChargeRows(p, correlate, rs, i)
    {
      ghost var row := charged;
      for j := i + 1 to |rs|
        invariant |charged| == |rs| && charged == ChargeRow(p, correlate, row, i, j)
      {
        hide HalfPenalty;
        var correlation := correlate(charged[i].curve, charged[j].curve);
        if correlation > p.threshold {
          var half := HalfPenalty(p, correlation, charged[i], charged[j]);
          charged := charged[i := Charge(charged[i], half)][j := Charge(charged[j], half)];
        }
      }
    }
  }

  lemma HalfPenaltyNonNegative(p: Penalty, correlation: real, a: SymbolResult, b: SymbolResult)
    requires correlation > p.threshold
    ensures p.threshold >= 0.0 && p.impactBps >= 0.0 && a.capital >= 0.0 && b.capital >= 0.0
            ==> HalfPenalty(p, correlation, a, b) >= 0.0
  {}

  // ---- What each holding pays ----

  /** What each side of a pair owes, from the holdings as their runs left them. */
  function Due(p: Penalty, correlate: (seq<real>, seq<real>) -> real, rs: seq<SymbolResult>, i: nat, j: nat): real
    requires i < |rs| && j < |rs|
  {
    var correlation := correlate(rs[i].curve, rs[j].curve);
    if correlation > p.threshold then HalfPenalty(p, correlation, rs[i], rs[j]) else 0.0
  }

  /** What holding `i` owes with those after it and before `j`. */
  function DueToLater(
    p: Penalty, correlate: (seq<real>, seq<real>) -> real, rs: seq<SymbolResult>, i: nat, j: nat): real
    requires i < |rs| && j <= |rs|
  {
    if j <= i + 1 then 0.0 else DueToLater(p, correlate, rs, i, j - 1) + Due(p, correlate, rs, i, j - 1)
  }

  /** What holding `s` owes with the first `i` ones. */
  function DueToEarlier(
    p: Penalty, correlate: (seq<real>, seq<real>) -> real, rs: seq<SymbolResult>, s: nat, i: nat): real
    requires i <= s < |rs|
  {
    if i == 0 then 0.0 else DueToEarlier(p, correlate, rs, s, i - 1) + Due(p, correlate, rs, i - 1, s)
  }

  /** Both sides of every pair whose first holding is among the first `i`. */
  function TotalDue(p: Penalty, correlate: (seq<real>, seq<real>) -> real, rs: seq<SymbolResult>, i: nat): real
    requires i <= |rs|
  {
    if i == 0 then 0.0 else TotalDue(p, correlate, rs, i - 1) + 2.0 * DueToLater(p, correlate, rs, i - 1, |rs|)
  }

  lemma PairCharges(
    p: Penalty, correlate: (seq<real>, seq<real>) -> real, before: seq<SymbolResult>, rs: seq<SymbolResult>, i: nat,
    j: nat)
    requires i < j < |rs| && AllChargedAlike(before, rs)
    ensures var r, due := ChargePair(p, correlate, rs, i, j), Due(p, correlate, before, i, j);
            && AllChargedAlike(before, r)
            && r[i].pnl == rs[i].pnl - due && r[j].pnl == rs[j].pnl - due
            && (forall s :: 0 <= s < |rs| && s != i && s != j ==> r[s] == rs[s])
            && Sum(Pnls(r)) == Sum(Pnls(rs)) - 2.0 * due
  {
    hide Sum, Pnls;
    assert before[i].curve == rs[i].curve && before[j].curve == rs[j].curve;
    assert before[i].capital == rs[i].capital && before[j].capital == rs[j].capital;
    if correlate(rs[i].curve, rs[j].curve) > p.threshold {
      var half := Due(p, correlate, before, i, j);
      ChargeMovesSum(rs, i, half);
      ChargeMovesSum(rs[i := Charge(rs[i], half)], j, half);
    }
  }

  lemma {:induction false} RowCharges(
    p: Penalty, correlate: (seq<real>, seq<real>) -> real, before: seq<SymbolResult>, rs: seq<SymbolResult>, i: nat,
    j: nat)
    requires i < |rs| && j <= |rs| && AllChargedAlike(before, rs)
    ensures var r := ChargeRow(p, correlate, rs, i, j);
            && AllChargedAlike(before, r)
            && r[i].pnl == rs[i].pnl - DueToLater(p, correlate, before, i, j)
            && (forall s :: i < s < j ==> r[s].pnl == rs[s].pnl - Due(p, correlate, before, i, s))
            && (forall s :: 0 <= s < |rs| && (s < i || j <= s) && s != i ==> r[s] == rs[s])
            && Sum(Pnls(r)) == Sum(Pnls(rs)) - 2.0 * DueToLater(p, correlate, before, i, j)
  {
    hide ChargePair, Due, Sum, Pnls, AllChargedAlike;
    if j > i + 1 {
      AlikeLength(before, rs);
      RowCharges(p, correlate, before, rs, i, j - 1);
      PairCharges(p, correlate, before, ChargeRow(p, correlate, rs, i, j - 1), i, j - 1);
    }
  }

  lemma AlikeLength(before: seq<SymbolResult>, rs: seq<SymbolResult>)
    requires AllChargedAlike(before, rs)
    ensures |before| == |rs|
  {}

  /** `r` is `rs` after every pair whose first holding is among the first `i` has paid. */
  ghost predicate Paid(
    p: Penalty, correlate: (seq<real>, seq<real>) -> real, rs: seq<SymbolResult>, r: seq<SymbolResult>, i: nat)
    requires i <= |rs|
  {
    && AllChargedAlike(rs, r)
    && (forall s :: 0 <= s < i ==>
          r[s].pnl == rs[s].pnl - DueToEarlier(p, correlate, rs, s, s) - DueToLater(p, correlate, rs, s, |rs|))
    && (forall s :: i <= s < |rs| ==> r[s].pnl == rs[s].pnl - DueToEarlier(p, correlate, rs, s, i))
    && Sum(Pnls(r)) == Sum(Pnls(rs)) - TotalDue(p, correlate, rs, i)
  }

  lemma RowIsPaid(
    p: Penalty, correlate: (seq<real>, seq<real>) -> real, rs: seq<SymbolResult>, r: seq<SymbolResult>, i: nat)
    requires i < |rs| && Paid(p, correlate, rs, r, i)
    ensures |r| == |rs| && Paid(p, correlate, rs, ChargeRow(p, correlate, r, i, |rs|), i + 1)
  {
    hide ChargeRow, Due, DueToLater, Sum, Pnls, ChargedAlike;
    RowCharges(p, correlate, rs, r, i, |rs|);
    var next := ChargeRow(p, correlate, r, i, |rs|);
    forall s | 0 <= s < |rs|
      ensures next[s].pnl ==
              rs[s].pnl - if s <= i then DueToEarlier(p, correlate, rs, s, s) + DueToLater(p, correlate, rs, s, |rs|)
                                         else DueToEarlier(p, correlate, rs, s, i + 1)
    {}
  }

  lemma NothingPaid(p: Penalty, correlate: (seq<real>, seq<real>) -> real, rs: seq<SymbolResult>)
    ensures Paid(p, correlate, rs, rs, 0)
  {
    hide Sum, Pnls;
  }

  lemma {:induction false} RowsArePaid(
    p: Penalty, correlate: (seq<real>, seq<real>) -> real, rs: seq<SymbolResult>, i: nat)
    requires i <= |rs|
    ensures Paid(p, correlate, rs, ChargeRows(p, correlate, rs, i), i)
  {
    hide Paid, ChargeRow;
    if i == 0 {
      NothingPaid(p, correlate, rs);
    } else {
      RowsArePaid(p, correlate, rs, i - 1);
      RowIsPaid(p, correlate, rs, ChargeRows(p, correlate, rs, i - 1), i - 1);
    }
  }

  /**
   * The penalties are those of the correlated pairs and no others: each holding loses its half for every partner before
   * and after it, from the results as the runs left them, and the portfolio loses both halves of every pair.
   */
  lemma EveryPairIsCharged(p: Penalty, correlate: (seq<real>, seq<real>) -> real, rs: seq<SymbolResult>)
    ensures var r, active := Penalised(p, correlate, rs), p.enabled && |rs| >= 2;
            && |r| == |rs| && Sum(Pnls(r)) == Sum(Pnls(rs)) - (if active then TotalDue(p, correlate, rs, |rs|) else 0.0)
            && forall s :: 0 <= s < |rs| ==>
                 r[s].pnl == rs[s].pnl - if !active then 0.0 else
                   DueToEarlier(p, correlate, rs, s, s) + DueToLater(p, correlate, rs, s, |rs|)
  {
    hide ChargeRows, Due, DueToEarlier, DueToLater, Sum, Pnls, AllChargedAlike;
    RowsArePaid(p, correlate, rs, |rs|);
  }

  /** What a correlated pair pays in all is its correlation times the impact on the smaller of the two capitals. */
  lemma PenaltyIsOnSmallerCapital(p: Penalty, correlation: real, a: SymbolResult, b: SymbolResult)
    ensures HalfPenalty(p, correlation, a, b) == HalfPenalty(p, correlation, b, a)
    ensures a.capital <= b.capital ==>
              2.0 * HalfPenalty(p, correlation, a, b) * 10000.0 == Times(Times(correlation, p.impactBps), a.capital)
  {}

  function Shares(initial: real, holdings: seq<Holding>): seq<real> {
    seq(|holdings|, i requires 0 <= i < |holdings| => Share(initial, holdings[i]))
  }

  function Weights(holdings: seq<Holding>): seq<real> {
    seq(|holdings|, i requires 0 <= i < |holdings| => holdings[i].weight)
  }

  /**
   * The holdings' capitals add up to the initial capital times their weights' sum: to all of it where those make one.
   */
  lemma {:induction false} SharesAddUp(initial: real, holdings: seq<Holding>)
    ensures Sum(Shares(initial, holdings)) == Times(initial, Sum(Weights(holdings)))
  {
    if holdings == [] {
      TimesZero(initial, 0.0);
    } else {
      var n := |holdings| - 1;
      SharesAddUp(initial, holdings[..n]);
      assert Shares(initial, holdings)[..n] == Shares(initial, holdings[..n]);
      assert Weights(holdings)[..n] == Weights(holdings[..n]);
      OneMoreShare(initial, Sum(Weights(holdings[..n])), holdings[n].weight);
    }
  }

  lemma OneMoreShare(initial: real, weights: real, weight: real)
    ensures Times(initial, weights) + initial * weight == Times(initial, weights + weight)
  {}

  // ---- Aggregation ----

  /** A curve's value at `t`, its last value once it has ended. */
  function At(curve: seq<real>, t: nat): real
    requires curve != []
  {
    if t < |curve| then curve[t] else Last(curve)
  }

  function Column(rs: seq<SymbolResult>, t: nat): seq<real>
    requires forall i :: 0 <= i < |rs| ==> rs[i].curve != []
  {
    seq(|rs|, i requires 0 <= i < |rs| => At(rs[i].curve, t))
  }

  function Longest(rs: seq<SymbolResult>): nat {
    if rs == [] then 0
    else
      var rest, last := Longest(rs[..|rs| - 1]), |rs[|rs| - 1].curve|;
      if rest >= last then rest else last
  }

  lemma {:induction false} LongestIsLongest(rs: seq<SymbolResult>, i: nat)
    requires i < |rs|
    ensures |rs[i].curve| <= Longest(rs)
  {
    if i < |rs| - 1 {
      LongestIsLongest(rs[..|rs| - 1], i);
    }
  }

  method AggregateCurves(initial: real, rs: seq<SymbolResult>) returns (curve: seq<real>)
    requires forall i :: 0 <= i < |rs| ==> rs[i].curve != []
    ensures rs == [] ==> curve == [initial]
    ensures rs != [] ==> |curve| == Longest(rs) > 0 && forall t :: 0 <= t < |curve| ==> curve[t] == Sum(Column(rs, t))
    ensures rs != [] ==> Last(curve) == Sum(LastPoints(rs))
  {
    if rs == [] {
      return [initial];
    }
    LongestIsLongest(rs, 0);
    curve := [];
    for t := 0 to Longest(rs)
      invariant |curve| == t && forall k :: 0 <= k < t ==> curve[k] == Sum(Column(rs, k))
    {
      curve := curve + [Sum(Column(rs, t))];
    }
    forall i | 0 <= i < |rs| ensures At(rs[i].curve, Longest(rs) - 1) == Last(rs[i].curve) {
      LongestIsLongest(rs, i);
    }
    assert Column(rs, Longest(rs) - 1) == LastPoints(rs);
  }

  function TotalTrades(rs: seq<SymbolResult>): nat {
    if rs == [] then 0 else TotalTrades(rs[..|rs| - 1]) + rs[|rs| - 1].trades
  }

  function TotalWins(rs: seq<SymbolResult>): nat {
    if rs == [] then 0 else TotalWins(rs[..|rs| - 1]) + rs[|rs| - 1].wins
  }

  /** Winning trades recovered from the reported rate. */
  function RatedWins(r: SymbolResult): real {
    r.winRate * r.trades as real
  }

  function WeightedWins(rs: seq<SymbolResult>): seq<real> {
    seq(|rs|, i requires 0 <= i < |rs| => RatedWins(rs[i]))
  }

  function Fees(rs: seq<SymbolResult>): seq<real> {
    seq(|rs|, i requires 0 <= i < |rs| => rs[i].fees)
  }

  lemma {:induction false} WeightedWinsAreWins(rs: seq<SymbolResult>)
    requires forall i :: 0 <= i < |rs| ==> RatedWins(rs[i]) == rs[i].wins as real
    ensures Sum(WeightedWins(rs)) == TotalWins(rs) as real
  {
    hide RatedWins;
    if rs != [] {
      var front := rs[..|rs| - 1];
      WeightedWinsAreWins(front);
      assert WeightedWins(rs)[..|rs| - 1] == WeightedWins(front);
    }
  }

  lemma {:induction false} SumsReconcile(rs: seq<SymbolResult>)
    requires forall i :: 0 <= i < |rs| ==> Reconciled(rs[i])
    ensures Sum(Finals(rs)) - Sum(Allocations(rs)) == Sum(Pnls(rs))
  {
    if rs != [] {
      var front := rs[..|rs| - 1];
      SumsReconcile(front);
      assert Finals(rs)[..|rs| - 1] == Finals(front);
      assert Allocations(rs)[..|rs| - 1] == Allocations(front);
      assert Pnls(rs)[..|rs| - 1] == Pnls(front);
    }
  }

  function Aggregate(rs: seq<SymbolResult>, curve: seq<real>): PortfolioResult {
    PortfolioResult(rs, Sum(Pnls(rs)), TotalTrades(rs),
                    if TotalTrades(rs) > 0 then Sum(WeightedWins(rs)) / TotalTrades(rs) as real else 0.0,
                    Sum(Fees(rs)), curve, Sum(Finals(rs)))
  }

  /** The portfolio win rate is all winning trades over all trades. */
  predicate RateIsExact(r: PortfolioResult) {
    r.trades == TotalTrades(r.symbols)
    && (r.trades > 0 ==> r.winRate * r.trades as real == TotalWins(r.symbols) as real)
  }

  /** A holding without signals is left out. */
  method RunHoldings(initial: real, holdings: seq<Holding>) returns (results: seq<SymbolResult>)
    requires AllFed(holdings) && forall i :: 0 <= i < |holdings| ==> Simulable(holdings[i], Share(initial, holdings[i]))
    ensures results == Results(initial, holdings)
    ensures forall k :: 0 <= k < |results| ==> FreshlyRun(results[k]) && results[k].curve != []
  {
    hide Simulable, Simulated, RatedWins, Reconciled, ResultOf;
    results := [];
    for i := 0 to |holdings|
      invariant results == Results(initial, holdings[..i])
      invariant forall k :: 0 <= k < |results| ==> FreshlyRun(results[k]) && results[k].curve != []
    {
      assert holdings[..i + 1][..i] == holdings[..i];
      var h := holdings[i];
      if h.feed.Some? {
        var result := RunHolding(h, h.feed.value, Share(initial, h));
        results := results + [result];
      }
    }
    assert holdings[..|holdings|] == holdings;
  }

  /**
   * Runs every holding that has signals and aggregates. Penalties included, what the portfolio ends with beyond its
   * capital is its total profit, and the aggregated curve, which no penalty touches, ends at the final equity plus
   * them.
   */
  method RunCandleBased(initial: real, holdings: seq<Holding>, penalty: Penalty,
                        correlate: (seq<real>, seq<real>) -> real) returns (r: PortfolioResult)
    requires AllFed(holdings) && forall i :: 0 <= i < |holdings| ==> Simulable(holdings[i], Share(initial, holdings[i]))
    ensures holdings == [] ==> r == PortfolioResult([], 0.0, 0, 0.0, 0.0, [initial], initial)
    ensures r.symbols == Penalised(penalty, correlate, Results(initial, holdings))
    ensures r.finalEquity - Sum(Allocations(r.symbols)) == r.totalPnl <==> holdings != [] || initial == 0.0
    ensures r.symbols != [] ==>
              r.curve != [] && Last(r.curve) - r.finalEquity == Sum(Pnls(Results(initial, holdings))) - r.totalPnl
    ensures RateIsExact(r)
    ensures forall i :: 0 <= i < |r.symbols| ==> Reconciled(r.symbols[i])
  {
    if holdings == [] {
      NothingToPenalise(penalty, correlate);
      return PortfolioResult([], 0.0, 0, 0.0, 0.0, [initial], initial);
    }
    hide Sum, TotalTrades, TotalWins, FreshlyRun, Simulable, RatedWins, Longest, RateIsExact, Share, Results, Penalised;
    var results := RunHoldings(initial, holdings);
    var charged := ApplyPenalties(penalty, correlate, results);
    var curve := AggregateCurves(initial, results);
    PenaltiesAreFair(penalty, correlate, results);
    FreshRunsReconcile(results, charged);
    r := Aggregate(charged, curve);
    RateTimesTrades(charged, curve);
  }

  lemma NothingToPenalise(p: Penalty, correlate: (seq<real>, seq<real>) -> real)
    ensures Penalised(p, correlate, []) == []
  {}

  lemma RateTimesTrades(rs: seq<SymbolResult>, curve: seq<real>)
    requires forall i :: 0 <= i < |rs| ==> RatedWins(rs[i]) == rs[i].wins as real
    ensures RateIsExact(Aggregate(rs, curve))
  {
    hide Sum, TotalTrades, TotalWins, RatedWins;
    WeightedWinsAreWins(rs);
    if TotalTrades(rs) > 0 {
      QuotientTimesDivisor(Sum(WeightedWins(rs)), TotalTrades(rs) as real);
    }
  }

  lemma FreshRunsReconcile(rs: seq<SymbolResult>, charged: seq<SymbolResult>)
    requires forall i :: 0 <= i < |rs| ==> FreshlyRun(rs[i]) && rs[i].curve != []
    requires AllChargedAlike(rs, charged)
    ensures forall i :: 0 <= i < |charged| ==>
            Reconciled(charged[i]) && RatedWins(charged[i]) == charged[i].wins as real
    ensures Sum(Finals(charged)) - Sum(Allocations(charged)) == Sum(Pnls(charged))
    ensures Sum(LastPoints(rs)) - Sum(Finals(charged)) == Sum(Pnls(rs)) - Sum(Pnls(charged))
  {
    hide Sum;
    assert forall i :: 0 <= i < |rs| ==> RatedWins(charged[i]) == RatedWins(rs[i]);
    SumsReconcile(rs);
    SumsReconcile(charged);
    assert LastPoints(rs) == Finals(rs);
    assert Allocations(charged) == Allocations(rs);
  }
}
