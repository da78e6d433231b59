/** What an entry of the multi-leg engines holds: its signal times the combination the risk gate measures. */
module EntryDrift {
  import opened Reals
  import opened Margin
  import opened Legs
  import opened TickBook
  import Pairs
  import Baskets

  function SignedQuantity(leg: Leg): real {
    if leg.side == Long then leg.quantity else -leg.quantity
  }

  /** The weight of a leg in the traded combination; the first leg counts once. */
  function LegWeight(weights: seq<real>, i: nat): real
    requires i < |weights|
  {
    if i == 0 then 1.0 else weights[i]
  }

  // ---- Baskets ----

  /** Every leg of an entry holds its weight, signed by the signal, in units of the first leg. */
  lemma LegHoldsItsWeight(
    cfg: Config, weights: seq<real>, prices: seq<real>, fees: seq<LegFee>, signal: int, i: nat)
    requires |weights| == |prices| == |fees| && i < |weights| && IsEntrySignal(signal)
    ensures SignedQuantity(Baskets.OpenLegs(cfg, weights, prices, fees, signal)[i])
            == Times(signal as real * LegWeight(weights, i), Baskets.BaseQuantity(cfg, prices[0]))
  {
    var base := Baskets.BaseQuantity(cfg, prices[0]);
    hide Baskets.BaseQuantity;
    if i > 0 {
      WeightSign(weights[i], base);
    }
  }

  /** A leg is bought where its signed weight is positive; one that weighs nothing counts with the first leg. */
  lemma LegIsOnItsWeightsSide(
    cfg: Config, weights: seq<real>, prices: seq<real>, fees: seq<LegFee>, signal: int, i: nat)
    requires |weights| == |prices| == |fees| && i < |weights| && IsEntrySignal(signal)
    ensures var weight := LegWeight(weights, i);
            Baskets.OpenLegs(cfg, weights, prices, fees, signal)[i].side == Long <==>
              if weight == 0.0 then signal > 0 else signal as real * weight > 0.0
  {
    hide Baskets.BaseQuantity;
  }

  lemma WeightSign(weight: real, base: real)
    ensures Abs(weight) * base == if weight >= 0.0 then Times(weight, base) else -Times(weight, base)
    ensures Times(-1.0 * weight, base) == -Times(weight, base) && Times(1.0 * weight, base) == Times(weight, base)
  {}

  lemma FreeLegMark(side: Side, quantity: real, mid: real, price: real)
    ensures MarkedPnl(OpenLeg(side, quantity, mid, LegFee(0.0, 0.0)), price)
            == Times(if side == Long then quantity else -quantity, price - mid)
  {}

  /** The weighted move of every leg, in order. */
  function Moves(weights: seq<real>, base: real, prices: seq<real>, now: seq<real>): seq<real>
    requires |weights| == |prices| == |now|
  {
    seq(|prices|, i requires 0 <= i < |prices| => Times(base, Times(LegWeight(weights, i), now[i] - prices[i])))
  }

  lemma {:induction false} MovesAddUp(weights: seq<real>, base: real, prices: seq<real>, now: seq<real>)
    requires |weights| == |prices| == |now| >= 1
    ensures Sum(Moves(weights, base, prices, now))
            == Times(base, Baskets.Combination(weights, now) - Baskets.Combination(weights, prices))
  {
    hide Sum, Moves, Baskets.Combination, Times;
    if |prices| == 1 {
      FirstMove(weights, base, prices, now);
    } else {
      var n := |prices| - 1;
      MovesAddUp(weights[..n], base, prices[..n], now[..n]);
      NextMove(weights, base, prices, now);
      CombinationOfFront(weights, prices);
      CombinationOfFront(weights, now);
      var rest := Baskets.Combination(weights[..n], now[..n]) - Baskets.Combination(weights[..n], prices[..n]);
      var move := weights[n] * now[n] - weights[n] * prices[n];
      LastMove(base, weights[n], prices[n], now[n], rest, move);
      assert Baskets.Combination(weights, now) - Baskets.Combination(weights, prices) == rest + move;
    }
  }

  lemma FirstMove(weights: seq<real>, base: real, prices: seq<real>, now: seq<real>)
    requires |weights| == |prices| == |now| == 1
    ensures Sum(Moves(weights, base, prices, now))
            == Times(base, Baskets.Combination(weights, now) - Baskets.Combination(weights, prices))
  {
    var moves := Moves(weights, base, prices, now);
    SumOfOne(moves, moves[0]);
    assert Baskets.WeightedTail(weights, now) == [] == Baskets.WeightedTail(weights, prices);
  }

  lemma NextMove(weights: seq<real>, base: real, prices: seq<real>, now: seq<real>)
    requires |weights| == |prices| == |now| > 1
    ensures var n := |prices| - 1;
            Sum(Moves(weights, base, prices, now))
            == Sum(Moves(weights[..n], base, prices[..n], now[..n]))
               + Times(base, Times(weights[n], now[n] - prices[n]))
  {
    hide Times;
    var n := |prices| - 1;
    assert Moves(weights, base, prices, now)[..n] == Moves(weights[..n], base, prices[..n], now[..n]);
  }

  lemma CombinationOfFront(weights: seq<real>, prices: seq<real>)
    requires |weights| == |prices| > 1
    ensures var n := |prices| - 1;
            Baskets.Combination(weights, prices)
            == Baskets.Combination(weights[..n], prices[..n]) + weights[n] * prices[n]
  {
    TailOfFront(weights, prices);
    hide Baskets.WeightedTail;
    var tail, n := Baskets.WeightedTail(weights, prices), |prices| - 1;
    LastOfTail(weights, prices);
    assert Sum(tail) == Sum(tail[..n - 1]) + tail[n - 1];
  }

  lemma LastOfTail(weights: seq<real>, prices: seq<real>)
    requires |weights| == |prices| > 1
    ensures var tail, n := Baskets.WeightedTail(weights, prices), |prices| - 1;
            |tail| == n && tail[n - 1] == weights[n] * prices[n]
  {}

  lemma TailOfFront(weights: seq<real>, prices: seq<real>)
    requires |weights| == |prices| > 1
    ensures Baskets.WeightedTail(weights, prices)[..|prices| - 2]
            == Baskets.WeightedTail(weights[..|prices| - 1], prices[..|prices| - 1])
  {
    var n := |prices| - 1;
    forall i | 0 <= i < n - 1
      ensures Baskets.WeightedTail(weights, prices)[i] == Baskets.WeightedTail(weights[..n], prices[..n])[i]
    {
      SameProduct(weights[i + 1], weights[..n][i + 1], prices[i + 1], prices[..n][i + 1]);
    }
  }

  lemma LastMove(base: real, weight: real, price: real, now: real, rest: real, move: real)
    requires move == weight * now - weight * price
    ensures Times(base, rest) + Times(base, Times(weight, now - price)) == Times(base, rest + move)
  {}

  predicate FreeTrading(fees: seq<LegFee>) {
    forall i :: 0 <= i < |fees| ==> fees[i] == LegFee(0.0, 0.0)
  }

  /**
   * Without fees an entered basket is marked at its signal times its base quantity times the drift of the combination
   * since entry: the very combination whose drift the risk gate prices.
   */
  lemma BasketMarksDrift(
    cfg: Config, weights: seq<real>, prices: seq<real>, fees: seq<LegFee>, signal: int, now: seq<real>)
    requires |weights| == |prices| == |fees| == |now| >= 1 && IsEntrySignal(signal) && FreeTrading(fees)
    ensures var base := Baskets.BaseQuantity(cfg, prices[0]);
            Sum(Baskets.MarkedPnls(Baskets.OpenLegs(cfg, weights, prices, fees, signal), now))
            == Times(Times(signal as real, base),
                     Baskets.Combination(weights, now) - Baskets.Combination(weights, prices))
  {
    var base := Baskets.BaseQuantity(cfg, prices[0]);
    var legs, scale := Baskets.OpenLegs(cfg, weights, prices, fees, signal), Times(signal as real, base);
    forall i | 0 <= i < |legs|
      ensures MarkedPnl(legs[i], now[i]) == Times(scale, Times(LegWeight(weights, i), now[i] - prices[i]))
    {
      LegHoldsItsWeight(cfg, weights, prices, fees, signal, i);
      FreeLegMark(legs[i].side, legs[i].quantity, prices[i], now[i]);
      Regroup(signal as real, LegWeight(weights, i), base, now[i] - prices[i]);
    }
    assert Baskets.MarkedPnls(legs, now) == Moves(weights, scale, prices, now);
    MovesAddUp(weights, scale, prices, now);
  }

  lemma Regroup(signal: real, weight: real, base: real, move: real)
    ensures Times(Times(signal * weight, base), move) == Times(Times(signal, base), Times(weight, move))
  {}

  /** The same on the operation: what an entry taken without fees is marked at on any later tick. */
  lemma EnteredBasketMarksDrift(m: Baskets.Market, t: nat, signal: int, u: nat)
    requires m.Covers(t + 1) && m.Covers(u + 1) && m.Shaped() && IsEntrySignal(signal) && FreeTrading(m.fees)
    requires Baskets.EntryEvent(m, t, signal).Entered? && m.Tradable(u)
    ensures var p := Baskets.EntryEvent(m, t, signal).position;
            && m.Tradable(t) && Baskets.WeightsAt(m, t) == Some(p.weights) && |p.weights| == |m.venues|
            && Baskets.Mark(m, u, Some(p))
               == Times(Times(signal as real, Baskets.BaseQuantity(m.cfg, m.Prices(t)[0])),
                        Baskets.Combination(p.weights, m.Prices(u)) - Baskets.Combination(p.weights, m.Prices(t)))
  {
    hide Baskets.OpenLegs, Baskets.ExceedsRiskLimit, Baskets.RollingCombinationMean, Baskets.BaseQuantity,
      Baskets.Combination, MarkedPnl, Sum;
    var weights := Baskets.WeightsAt(m, t).value;
    BasketMarksDrift(m.cfg, weights, m.Prices(t), m.fees, signal, m.Prices(u));
  }

  // ---- Pairs ----

  /** The cap shrinks both legs alike, so the hedge ratio survives it. */
  lemma SizesKeepRatio(cfg: Config, priceA: real, priceB: real, ratio: real)
    ensures var (a, b) := Pairs.Sizes(cfg, priceA, priceB, ratio); b == Times(Abs(ratio), a)
  {
    hide SizeLeveragedOrder, CapFactor, ExposureCap, JointNotional, Abs;
    var quantity := SizeLeveragedOrder(cfg.initialCapital, cfg.sizePct, cfg.risk.leverage, priceA).quantity;
    AbsIsNonNegative(ratio);
    NonNegativeProduct(Abs(ratio), quantity);
    ShrinkProduct(Abs(ratio), NonNegative(quantity));
  }

  lemma AbsIsNonNegative(x: real)
    ensures Abs(x) >= 0.0
  {}

  lemma NonNegativeProduct(k: real, x: real)
    requires k >= 0.0
    ensures NonNegative(k * x) == k * NonNegative(x)
  {
    if x > 0.0 {
      ProductOfNonNegatives(k, x);
    } else {
      ScaleKeepsOrder(k, x, 0.0);
    }
  }

  lemma ShrinkProduct(k: real, x: real)
    ensures forall factor :: Shrink(k * x, factor) == Times(k, Shrink(x, factor))
  {
    forall factor ensures Shrink(k * x, factor) == Times(k, Shrink(x, factor)) {
      assert k * x * factor == k * (x * factor);
    }
  }

  /**
   * Without fees an entered pair is marked at its signal times its first leg times the drift of the hedged spread since
   * entry, on any later tick with prices; whatever the cap made of its size.
   */
  lemma EnteredPairMarksDrift(m: Pairs.Market, t: nat, signal: int, u: nat)
    requires m.Covers(t + 1) && m.Covers(u + 1) && IsEntrySignal(signal) && FreeTrading([m.feeA, m.feeB])
    requires Pairs.EntryEvent(m, t, signal).Entered? && m.Tradable(u)
    ensures var p := Pairs.EntryEvent(m, t, signal).position;
            var ratio := Abs(p.hedgeRatio);
            && m.Tradable(t) && Pairs.HedgeRatio(m, t) == Some(p.hedgeRatio)
            && Pairs.Mark(m, u, Some(p))
               == Times(Times(signal as real, p.legA.quantity),
                        Pairs.Spread(m.a.prices[u].value, m.b.prices[u].value, ratio)
                        - Pairs.Spread(m.a.prices[t].value, m.b.prices[t].value, ratio))
  {
    hide Pairs.Sizes, Pairs.ExceedsRiskLimit, Pairs.RollingSpreadMean, Pairs.HedgeRatio, OpenLeg, MarkedPnl, Abs;
    assert [m.feeA, m.feeB][0] == LegFee(0.0, 0.0) == [m.feeA, m.feeB][1];
    var ratio := Pairs.HedgeRatio(m, t).value;
    var priceA, priceB := m.a.prices[t].value, m.b.prices[t].value;
    var (qtyA, qtyB) := Pairs.Sizes(m.cfg, priceA, priceB, ratio);
    var side := if signal == ENTER_LONG then Long else Short;
    SizesKeepRatio(m.cfg, priceA, priceB, ratio);
    FreeLegMark(side, qtyA, priceA, m.a.prices[u].value);
    FreeLegMark(side.Opposite(), qtyB, priceB, m.b.prices[u].value);
    FreeLegQuantity(side, qtyA, priceA);
    PairMoves(signal, qtyA, qtyB, Abs(ratio), priceA, priceB, m.a.prices[u].value, m.b.prices[u].value);
  }

  lemma FreeLegQuantity(side: Side, quantity: real, mid: real)
    ensures OpenLeg(side, quantity, mid, LegFee(0.0, 0.0)).quantity == quantity
  {}

  lemma PairMoves(signal: int, qtyA: real, qtyB: real, ratio: real, a: real, b: real, nowA: real, nowB: real)
    requires IsEntrySignal(signal) && qtyB == Times(ratio, qtyA)
    ensures var (x, y) := if signal == ENTER_LONG then (qtyA, -qtyB) else (-qtyA, qtyB);
            Times(x, nowA - a) + Times(y, nowB - b)
            == Times(Times(signal as real, qtyA), Pairs.Spread(nowA, nowB, ratio) - Pairs.Spread(a, b, ratio))
  {
    var moveB := nowB - b;
    assert ratio * qtyA * moveB == qtyA * (ratio * moveB);
    assert qtyA * (nowA - ratio * nowB - (a - ratio * b)) == qtyA * (nowA - a) - qtyA * (ratio * moveB);
  }

  // ---- The estimators ----

  /** Each value of the first series is `ratio` times that of the second, which starts away from zero. */
  ghost predicate Proportional(xs: seq<Quote>, ys: seq<Quote>, ratio: real) {
    && |xs| == |ys| > 0 && ys[0] != Price(0.0)
    && forall i :: 0 <= i < |xs| ==> xs[i].Price? && ys[i].Price? && xs[i].value == Times(ratio, ys[i].value)
  }

  /** An estimator that recovers the ratio of its first series to its second. */
  ghost predicate RecoversRatio(estimate: (seq<Quote>, seq<Quote>) -> Option<real>) {
    forall xs, ys, ratio :: Proportional(xs, ys, ratio) ==> estimate(xs, ys) == Some(ratio)
  }

  /** There are such estimators: the quotient of the first values is one. */
  function FirstQuotient(xs: seq<Quote>, ys: seq<Quote>): Option<real> {
    if xs != [] && ys != [] && xs[0].Price? && ys[0].Price? && ys[0].value != 0.0
    then Some(xs[0].value / ys[0].value) else None
  }

  lemma FirstQuotientRecovers()
    ensures RecoversRatio(FirstQuotient)
  {
    forall xs: seq<Quote>, ys: seq<Quote>, ratio: real | Proportional(xs, ys, ratio)
      ensures FirstQuotient(xs, ys) == Some(ratio)
    {
      QuotientOfTimes(ratio, ys[0].value);
    }
  }

  lemma QuotientOfTimes(ratio: real, y: real)
    requires y != 0.0
    ensures Times(ratio, y) / y == ratio
  {}

  /**
   * The estimator sees leg A first and leg B second: one that recovers a ratio recovers the one at which A has been
   * trading to B over the latest window, and there is none before the window is full.
   */
  lemma DynamicRatioIsAToB(m: Pairs.Market, t: nat, ratio: real)
    requires m.Covers(t + 1) && m.hedge.Dynamic? && RecoversRatio(m.hedge.estimate)
    requires m.cfg.window <= t + 1 ==>
               Proportional(m.a.prices[t + 1 - m.cfg.window..t + 1], m.b.prices[t + 1 - m.cfg.window..t + 1], ratio)
    ensures Pairs.HedgeRatio(m, t) == if m.cfg.window <= t + 1 then Some(ratio) else None
  {}

  ghost predicate AllProportional(windows: seq<seq<Quote>>, weights: seq<real>) {
    |windows| == |weights| && forall i :: 0 <= i < |windows| ==> Proportional(windows[i], windows[0], weights[i])
  }

  /** An estimator that recovers the proportion of every series to the first. */
  ghost predicate RecoversWeights(estimate: seq<seq<Quote>> -> Option<seq<real>>) {
    forall windows, weights :: AllProportional(windows, weights) ==> estimate(windows) == Some(weights)
  }

  /** The same for a basket: every leg's window is at its own place. */
  lemma DynamicWeightsAreByLeg(m: Baskets.Market, t: nat, weights: seq<real>)
    requires m.Covers(t + 1) && m.Shaped() && m.weighting.Dynamic? && RecoversWeights(m.weighting.estimate)
    requires |weights| == |m.venues| && m.cfg.window <= t + 1
    requires forall i :: 0 <= i < |weights| ==>
               Proportional(m.venues[i].prices[t + 1 - m.cfg.window..t + 1],
                            m.venues[0].prices[t + 1 - m.cfg.window..t + 1], weights[i])
    ensures Baskets.WeightsAt(m, t) == Some(weights)
  {
    var windows := Baskets.Windows(m, t);
    assert AllProportional(windows, weights);
  }

  // ---- Missing data ----

  /** A number above zero. */
  predicate Positive(quote: Quote) {
    quote.Price? && quote.value > 0.0
  }

  /** An entry is refused for its data exactly when a price is missing or not positive, or there is no hedge ratio. */
  lemma PairRefusedForDataIff(m: Pairs.Market, t: nat, signal: int)
    requires m.Covers(t + 1)
    ensures Pairs.EntryEvent(m, t, signal).NoData? <==>
            !Positive(m.a.prices[t]) || !Positive(m.b.prices[t]) || Pairs.HedgeRatio(m, t).None?
  {
    hide Pairs.HedgeRatio, Pairs.ExceedsRiskLimit, Pairs.RollingSpreadMean, Pairs.Sizes;
  }

  /** The same for a basket: every leg's price counts. */
  lemma BasketRefusedForDataIff(m: Baskets.Market, t: nat, signal: int)
    requires m.Covers(t + 1) && m.Shaped()
    ensures Baskets.EntryEvent(m, t, signal).NoData? <==>
            (exists i :: 0 <= i < |m.venues| && !Positive(m.venues[i].prices[t])) || Baskets.WeightsAt(m, t).None?
  {
    hide Baskets.WeightsAt, Baskets.ExceedsRiskLimit, Baskets.RollingCombinationMean, Baskets.OpenLegs;
  }

  // ---- The risk gate ----

  /** The exposure the gate of the two-leg engine weighs. */
  function PairExposure(cfg: Config, priceA: real, priceB: real, ratio: real, baseline: real): real {
    Exposure(Pairs.Sizes(cfg, priceA, priceB, ratio).0, Pairs.Spread(priceA, priceB, Abs(ratio)) - baseline)
  }

  function BasketExposure(cfg: Config, weights: seq<real>, prices: seq<real>, baseline: real): real
    requires |weights| == |prices| >= 1
  {
    Exposure(Baskets.BaseQuantity(cfg, prices[0]), Baskets.Combination(weights, prices) - baseline)
  }

  /** A pair entered against a baseline has at most its share of the capital exposed to the drift. */
  lemma EnteredPairIsWithinBudget(m: Pairs.Market, t: nat, signal: int)
    requires m.Covers(t + 1) && Pairs.EntryEvent(m, t, signal).Entered?
    ensures m.Tradable(t) && Pairs.HedgeRatio(m, t).Some?
    ensures var ratio := Pairs.HedgeRatio(m, t).value;
            var baseline := Pairs.RollingSpreadMean(m, Abs(ratio), t);
            baseline.Some? ==>
              PairExposure(m.cfg, m.a.prices[t].value, m.b.prices[t].value, ratio, baseline.value)
              <= m.cfg.initialCapital * m.cfg.maxNetExposurePct
  {
    hide Pairs.Sizes, Pairs.RollingSpreadMean, Pairs.HedgeRatio, Exposure, OpenLeg;
  }

  lemma EnteredBasketIsWithinBudget(m: Baskets.Market, t: nat, signal: int)
    requires m.Covers(t + 1) && m.Shaped() && Baskets.EntryEvent(m, t, signal).Entered?
    ensures m.Tradable(t) && Baskets.WeightsAt(m, t).Some?
    ensures var weights := Baskets.WeightsAt(m, t).value;
            var baseline := Baskets.RollingCombinationMean(m, weights, t);
            baseline.Some? ==>
              BasketExposure(m.cfg, weights, m.Prices(t), baseline.value)
              <= m.cfg.initialCapital * m.cfg.maxNetExposurePct
  {
    hide Baskets.OpenLegs, Baskets.RollingCombinationMean, Exposure;
  }

  function WithLimit(cfg: Config, pct: real): Config {
    cfg.(maxNetExposurePct := pct)
  }

  /** Raising the exposure limit never rejects an entry the lower limit let through. */
  lemma HigherLimitRejectsLess(
    cfg: Config, pct: real, priceA: real, priceB: real, ratio: real, baseline: Option<real>, weights: seq<real>,
    prices: seq<real>)
    requires cfg.initialCapital >= 0.0 && cfg.maxNetExposurePct <= pct && |weights| == |prices| >= 1
    ensures Pairs.ExceedsRiskLimit(WithLimit(cfg, pct), priceA, priceB, ratio, baseline) ==>
              Pairs.ExceedsRiskLimit(cfg, priceA, priceB, ratio, baseline)
    ensures Baskets.ExceedsRiskLimit(WithLimit(cfg, pct), weights, prices, baseline) ==>
              Baskets.ExceedsRiskLimit(cfg, weights, prices, baseline)
  {
    hide SizeLeveragedOrder, ScalePairedLegsToCap, Exposure;
    ScaleKeepsOrder(cfg.initialCapital, cfg.maxNetExposurePct, pct);
  }

  // ---- The baseline ----

  /** All prices known over the window up to `t`, and the spread of each tick `level`. */
  ghost predicate SteadySpread(m: Pairs.Market, ratio: real, t: nat, level: real)
    requires m.Covers(t + 1) && m.cfg.window <= t + 1
  {
    forall i :: t + 1 - m.cfg.window <= i <= t ==>
      m.a.prices[i].Price? && m.b.prices[i].Price?
      && Pairs.Spread(m.a.prices[i].value, m.b.prices[i].value, ratio) == level
  }

  lemma {:induction false} SteadySum(a: seq<Quote>, b: seq<Quote>, ratio: real, level: real)
    requires |a| == |b|
    requires forall i :: 0 <= i < |a| ==>
             a[i].Price? && b[i].Price? && Pairs.Spread(a[i].value, b[i].value, ratio) == level
    ensures Pairs.SpreadSum(a, b, ratio) == Some(Times(|a| as real, level))
  {
    hide Pairs.Spread;
    if a != [] {
      SteadySum(a[..|a| - 1], b[..|b| - 1], ratio, level);
      OneMore(|a|, level);
    } else {
      TimesZero(0.0, level);
    }
  }

  lemma OneMore(n: nat, level: real)
    requires n > 0
    ensures Times(n as real, level) == Times((n - 1) as real, level) + level
  {}

  lemma AverageOfEqual(n: real, level: real)
    requires n > 0.0
    ensures Times(n, level) / n == level
  {}

  /**
   * A spread that has not moved over the window is its own baseline, so the gate sees no drift and lets the entry
   * through.
   */
  lemma SteadySpreadIsLetThrough(m: Pairs.Market, ratio: real, t: nat, level: real)
    requires m.Covers(t + 1) && 0 < m.cfg.window <= t + 1 && SteadySpread(m, Abs(ratio), t, level)
    requires m.cfg.initialCapital >= 0.0 && m.cfg.maxNetExposurePct >= 0.0
    ensures Pairs.RollingSpreadMean(m, Abs(ratio), t) == Some(level)
    ensures m.a.prices[t].Price? && m.b.prices[t].Price?
    ensures !Pairs.ExceedsRiskLimit(m.cfg, m.a.prices[t].value, m.b.prices[t].value, ratio, Some(level))
  {
    var w := m.cfg.window;
    var a, b := m.a.prices[t + 1 - w..t + 1], m.b.prices[t + 1 - w..t + 1];
    hide Pairs.Spread, Abs;
    SteadySum(a, b, Abs(ratio), level);
    AverageOfEqual(w as real, level);
    hide Pairs.SpreadSum, Pairs.Sizes;
    ProductOfNonNegatives(m.cfg.initialCapital, m.cfg.maxNetExposurePct);
    NoDriftNoExposure(Pairs.Sizes(m.cfg, m.a.prices[t].value, m.b.prices[t].value, ratio).0);
  }

  lemma NoDriftNoExposure(quantity: real)
    ensures Exposure(quantity, 0.0) == 0.0
  {}

  ghost predicate SteadyCombination(m: Baskets.Market, weights: seq<real>, first: nat, last: nat, level: real)
    requires m.Covers(last) && |weights| == |m.venues| >= 1
  {
    forall i :: first <= i < last ==> m.PricesKnown(i) && Baskets.Combination(weights, m.Prices(i)) == level
  }

  lemma {:induction false} SteadyCombinationSum(
    m: Baskets.Market, weights: seq<real>, first: nat, last: nat, level: real)
    requires first <= last && m.Covers(last) && |weights| == |m.venues| >= 1
    requires SteadyCombination(m, weights, first, last, level)
    ensures Baskets.CombinationSum(m, weights, first, last) == Some(Times((last - first) as real, level))
    decreases last
  {
    hide Baskets.Combination;
    if first < last {
      SteadyCombinationSum(m, weights, first, last - 1, level);
      OneMore(last - first, level);
    } else {
      TimesZero(0.0, level);
    }
  }

  /** The same for a basket. */
  lemma SteadyCombinationIsLetThrough(m: Baskets.Market, weights: seq<real>, t: nat, level: real)
    requires m.Covers(t + 1) && |weights| == |m.venues| >= 1 && 0 < m.cfg.window <= t + 1
    requires SteadyCombination(m, weights, t + 1 - m.cfg.window, t + 1, level)
    requires m.cfg.initialCapital >= 0.0 && m.cfg.maxNetExposurePct >= 0.0
    ensures Baskets.RollingCombinationMean(m, weights, t) == Some(level) && m.PricesKnown(t)
    ensures !Baskets.ExceedsRiskLimit(m.cfg, weights, m.Prices(t), Some(level))
  {
    hide Baskets.Combination, Baskets.BaseQuantity;
    SteadyCombinationSum(m, weights, t + 1 - m.cfg.window, t + 1, level);
    AverageOfEqual(m.cfg.window as real, level);
    hide Baskets.CombinationSum;
    ProductOfNonNegatives(m.cfg.initialCapital, m.cfg.maxNetExposurePct);
    NoDriftNoExposure(Baskets.BaseQuantity(m.cfg, m.Prices(t)[0]));
  }
}
