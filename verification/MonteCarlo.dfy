/** Monte Carlo kernels: resampled equity paths, one-pass moments and tail risk (backtest/src/monte_carlo.rs). */
module MonteCarlo {
  import opened Reals
  import opened Drawdown

  // ---- Totals over a sample ----

  /** Sum of `f` over a sample. */
  function Total(f: real -> real, xs: seq<real>): real {
    if xs == [] then 0.0 else Total(f, xs[..|xs| - 1]) + f(xs[|xs| - 1])
  }

  const IDENTITY: real -> real := x => x
  const SQUARED: real -> real := x => x * x
  const WINNER: real -> real := x => if x > 0.0 then 1.0 else 0.0

  /** Compounded growth of a sequence of account returns. */
  function Growth(xs: seq<real>): real {
    if xs == [] then 1.0 else Growth(xs[..|xs| - 1]) * (1.0 + xs[|xs| - 1])
  }

  lemma {:induction false} TotalConcat(f: real -> real, xs: seq<real>, ys: seq<real>)
    ensures Total(f, xs + ys) == Total(f, xs) + Total(f, ys)
  {
    if ys == [] {
      assert xs + ys == xs;
    } else {
      assert (xs + ys)[..|xs + ys| - 1] == xs + ys[..|ys| - 1];
      TotalConcat(f, xs, ys[..|ys| - 1]);
    }
  }

  lemma TotalAppend(f: real -> real, xs: seq<real>, x: real)
    ensures Total(f, xs + [x]) == Total(f, xs) + f(x)
  {}

  lemma {:induction false} GrowthConcat(xs: seq<real>, ys: seq<real>)
    ensures Growth(xs + ys) == Growth(xs) * Growth(ys)
  {
    if ys == [] {
      assert xs + ys == xs;
    } else {
      var front, last := ys[..|ys| - 1], ys[|ys| - 1];
      assert (xs + ys)[..|xs + ys| - 1] == xs + front;
      GrowthConcat(xs, front);
      SameProduct(Growth(xs + front), Growth(xs) * Growth(front), 1.0 + last, 1.0 + last);
    }
  }

  lemma GrowthAppend(xs: seq<real>, x: real)
    ensures Growth(xs + [x]) == Growth(xs) * (1.0 + x)
  {}

  /** Splits `ys` at an occurrence of `x`. */
  lemma OccursAt(ys: seq<real>, x: real) returns (j: nat)
    requires x in multiset(ys)
    ensures j < |ys| && ys[j] == x && ys == ys[..j] + [x] + ys[j + 1..]
  {
    j :| 0 <= j < |ys| && ys[j] == x;
  }

  lemma RemovalKeepsMultiset(xs: seq<real>, ys: seq<real>, j: nat)
    requires xs != [] && multiset(xs) == multiset(ys) && j < |ys| && ys[j] == xs[|xs| - 1]
    ensures multiset(xs[..|xs| - 1]) == multiset(ys[..j] + ys[j + 1..])
  {
    var front, x := xs[..|xs| - 1], xs[|xs| - 1];
    assert xs == front + [x];
    assert ys == ys[..j] + [x] + ys[j + 1..];
    assert multiset(xs) == multiset(front) + multiset{x};
    assert multiset(ys) == multiset(ys[..j]) + multiset{x} + multiset(ys[j + 1..]);
    assert multiset(ys[..j] + ys[j + 1..]) == multiset(ys) - multiset{x};
  }

  /** Totals and growth do not depend on the order of a sample. */
  lemma {:induction false} OrderIsIrrelevant(f: real -> real, xs: seq<real>, ys: seq<real>)
    requires multiset(xs) == multiset(ys)
    ensures Total(f, xs) == Total(f, ys) && Growth(xs) == Growth(ys) && |xs| == |ys|
  {
    hide Total, Growth;
    SameElementsSameLength(xs, ys);
    if xs == [] {
      assert |ys| == 0;
      assert ys == [];
    } else {
      var front, x := xs[..|xs| - 1], xs[|xs| - 1];
      assert xs == front + [x];
      assert x in multiset(xs);
      var j := OccursAt(ys, x);
      var head, tail := ys[..j], ys[j + 1..];
      RemovalKeepsMultiset(xs, ys, j);
      OrderIsIrrelevant(f, front, head + tail);
      TotalAppend(f, front, x);
      TotalMoves(f, head, x, tail);
      GrowthAppend(front, x);
      GrowthMoves(head, x, tail);
      SameProduct(Growth(front), Growth(head + tail), 1.0 + x, 1.0 + x);
      assert ys == head + [x] + tail;
      assert Total(f, xs) == Total(f, front + [x]) == Total(f, head + [x] + tail) == Total(f, ys);
      assert Growth(xs) == Growth(front + [x]) == Growth(head + [x] + tail) == Growth(ys);
    }
  }

  lemma TotalMoves(f: real -> real, head: seq<real>, x: real, tail: seq<real>)
    ensures Total(f, head + [x] + tail) == Total(f, head + tail) + f(x)
  {
    hide Total;
    TotalConcat(f, head, tail);
    TotalConcat(f, head + [x], tail);
    TotalAppend(f, head, x);
  }

  lemma GrowthMoves(head: seq<real>, x: real, tail: seq<real>)
    ensures Growth(head + [x] + tail) == Growth(head + tail) * (1.0 + x)
  {
    hide Growth;
    GrowthConcat(head, tail);
    GrowthConcat(head + [x], tail);
    GrowthAppend(head, x);
    MoveFactor(Growth(head), 1.0 + x, Growth(tail), Growth(head + [x]), Growth(head + tail));
  }

  lemma MoveFactor(h: real, x: real, t: real, hx: real, ht: real)
    requires hx == h * x && ht == h * t
    ensures hx * t == ht * x
  {}

  // ---- One-pass moments ----

  lemma {:induction false} TotalIsSum(xs: seq<real>)
    ensures Total(IDENTITY, xs) == Sum(xs)
  {
    if xs != [] {
      TotalIsSum(xs[..|xs| - 1]);
    }
  }

  lemma MeanOfTotal(xs: seq<real>)
    ensures Mean(xs) == if xs == [] then 0.0 else Total(IDENTITY, xs) / |xs| as real
  {
    TotalIsSum(xs);
  }

  /** Two-pass sum of squared deviations from `c`. */
  function Deviations(xs: seq<real>, c: real): real {
    if xs == [] then 0.0
    else Deviations(xs[..|xs| - 1], c) + (xs[|xs| - 1] - c) * (xs[|xs| - 1] - c)
  }

  /** Sum of squared deviations from `c`, from the sums of a sample of size `n`. */
  function Spread(squares: real, sum: real, n: real, c: real): real {
    squares - 2.0 * c * sum + n * c * c
  }

  lemma {:induction false} DeviationsExpand(xs: seq<real>, c: real)
    ensures Deviations(xs, c) == Spread(Total(SQUARED, xs), Total(IDENTITY, xs), |xs| as real, c)
  {
    if xs == [] {
      EmptySpread(c);
    } else {
      hide Spread;
      var front, x := xs[..|xs| - 1], xs[|xs| - 1];
      DeviationsExpand(front, c);
      SpreadStep(Total(SQUARED, front), Total(IDENTITY, front), |front| as real, c, x);
      assert |xs| as real == |front| as real + 1.0;
    }
  }

  lemma EmptySpread(c: real)
    ensures Spread(0.0, 0.0, 0.0, c) == 0.0
  {}

  lemma SpreadStep(squares: real, sum: real, n: real, c: real, x: real)
    ensures Spread(squares, sum, n, c) + (x - c) * (x - c) ==
            Spread(squares + SQUARED(x), sum + IDENTITY(x), n + 1.0, c)
  {}

  lemma MeanTimesCount(xs: seq<real>)
    ensures Mean(xs) * |xs| as real == Total(IDENTITY, xs)
  {
    MeanOfTotal(xs);
  }

  /** The sum of squares about the mean, in a form that does not mention the order. */
  function Centred(squares: real, sum: real, mean: real): real {
    squares - mean * sum
  }

  lemma DeviationsFromMean(xs: seq<real>)
    ensures Deviations(xs, Mean(xs)) == Centred(Total(SQUARED, xs), Total(IDENTITY, xs), Mean(xs))
  {
    hide Deviations, Total, Mean, Spread, Centred;
    DeviationsExpand(xs, Mean(xs));
    MeanTimesCount(xs);
    SpreadAtMean(Total(SQUARED, xs), Total(IDENTITY, xs), |xs| as real, Mean(xs));
  }

  lemma SpreadAtMean(squares: real, sum: real, n: real, mean: real)
    requires mean * n == sum
    ensures Spread(squares, sum, n, mean) == Centred(squares, sum, mean)
  {}

  /** `size` counts the new value. */
  function NextMean(mean: real, x: real, size: real): real
    requires size != 0.0
  {
    mean + (x - mean) / size
  }

  function NextM2(m2: real, mean: real, next: real, x: real): real {
    m2 + (x - mean) * (x - next)
  }

  lemma MeanMoves(mean: real, x: real, n: real, sum: real)
    requires mean * n == sum && n >= 0.0
    ensures NextMean(mean, x, n + 1.0) * (n + 1.0) == sum + x
    ensures NextMean(mean, x, n + 1.0) == (sum + x) / (n + 1.0)
  {}

  lemma NextMeanIsMean(xs: seq<real>, x: real)
    ensures NextMean(Mean(xs), x, |xs + [x]| as real) == Mean(xs + [x])
    ensures Mean(xs + [x]) * (|xs| as real + 1.0) == Total(IDENTITY, xs) + x
  {
    hide Total, NextMean;
    MeanTimesCount(xs);
    TotalAppend(IDENTITY, xs, x);
    assert |xs + [x]| as real == |xs| as real + 1.0;
    MeanMoves(Mean(xs), x, |xs| as real, Total(IDENTITY, xs));
    MeanTimesCount(xs + [x]);
  }

  /** One update turns the moments of a sample into those of the extended sample. */
  lemma WelfordStep(xs: seq<real>, x: real)
    ensures NextMean(Mean(xs), x, |xs + [x]| as real) == Mean(xs + [x])
    ensures NextM2(Deviations(xs, Mean(xs)), Mean(xs), Mean(xs + [x]), x) == Deviations(xs + [x], Mean(xs + [x]))
  {
    hide Deviations, Total, Mean, Centred, NextM2, NextMean;
    NextMeanIsMean(xs, x);
    MeanTimesCount(xs);
    DeviationsFromMean(xs);
    DeviationsFromMean(xs + [x]);
    TotalAppend(IDENTITY, xs, x);
    TotalAppend(SQUARED, xs, x);
    MomentUpdate(Total(SQUARED, xs), Total(IDENTITY, xs), |xs| as real, Mean(xs), Mean(xs + [x]), x);
  }

  lemma MomentUpdate(squares: real, sum: real, n: real, mean: real, next: real, x: real)
    requires mean * n == sum && next * (n + 1.0) == sum + x
    ensures NextM2(Centred(squares, sum, mean), mean, next, x) == Centred(squares + SQUARED(x), sum + IDENTITY(x), next)
  {}

  /** The one-pass accumulators equal the two-pass mean and sum of squared deviations. */
  method Welford(xs: seq<real>) returns (mean: real, m2: real)
    ensures mean == Mean(xs) && m2 == Deviations(xs, Mean(xs))
  {
    mean, m2 := 0.0, 0.0;
    for i := 0 to |xs|
      invariant mean == Mean(xs[..i]) && m2 == Deviations(xs[..i], Mean(xs[..i]))
    {
      hide Mean, Deviations, NextMean, NextM2;
      WelfordStep(xs[..i], xs[i]);
      assert xs[..i + 1] == xs[..i] + [xs[i]];
      var next := NextMean(mean, xs[i], (i + 1) as real);
      m2 := NextM2(m2, mean, next, xs[i]);
      mean := next;
    }
    assert xs[..|xs|] == xs;
  }

  // ---- Resampled equity paths ----

  /** A trade's account return and its worst adverse excursion in dollars. */
  datatype Trade = Trade(ret: real, adverse: real)

  datatype Path = Path(equity: real, peak: real, worst: real, wins: nat, mean: real, m2: real, points: seq<real>)

  function Returns(picks: seq<Trade>): seq<real> {
    seq(|picks|, i requires 0 <= i < |picks| => picks[i].ret)
  }

  function Picks(trades: seq<Trade>, order: seq<nat>): seq<Trade>
    requires Indexes(trades, order)
  {
    seq(|order|, i requires 0 <= i < |order| => trades[order[i]])
  }

  function Grown(equity: real, ret: real): real {
    equity + equity * ret
  }

  /** Dollars lost at a trade's worst point, scaled from the initial capital to the current equity. */
  function Excursion(equity: real, adverse: real, initial: real): real
    requires initial != 0.0
  {
    adverse * Max(equity / initial, 0.0)
  }

  /** An excursion that is not a loss marks no trough. */
  function Trough(equity: real, adverse: real, initial: real): real
    requires initial != 0.0
  {
    equity - Max(Excursion(equity, adverse, initial), 0.0)
  }

  /** The equity after every trade, starting at the initial capital. */
  function Curve(picks: seq<Trade>, initial: real): seq<real> {
    if picks == [] then [initial]
    else
      var front := Curve(picks[..|picks| - 1], initial);
      front + [Grown(front[|front| - 1], picks[|picks| - 1].ret)]
  }

  /** The same curve with every intra-trade trough written in before the trade's result. */
  function WithTroughs(picks: seq<Trade>, initial: real): seq<real>
    requires initial != 0.0
  {
    if picks == [] then [initial]
    else
      var last, before := picks[|picks| - 1], Curve(picks[..|picks| - 1], initial);
      var equity := before[|before| - 1];
      WithTroughs(picks[..|picks| - 1], initial) + [Trough(equity, last.adverse, initial), Grown(equity, last.ret)]
  }

  lemma {:induction false} CurveShape(picks: seq<Trade>, initial: real)
    ensures |Curve(picks, initial)| == |picks| + 1
    ensures Curve(picks, initial)[|picks|] == initial * Growth(Returns(picks))
  {
    if picks != [] {
      var front := picks[..|picks| - 1];
      CurveShape(front, initial);
      assert Returns(picks)[..|picks| - 1] == Returns(front);
      GrownByFactor(Curve(front, initial)[|front|], picks[|picks| - 1].ret, initial, Growth(Returns(front)));
    }
  }

  lemma GrownByFactor(equity: real, ret: real, initial: real, growth: real)
    requires equity == initial * growth
    ensures Grown(equity, ret) == initial * (growth * (1.0 + ret))
  {}

  /** A sane trade set: no trade loses the account, no excursion exceeds the capital. */
  predicate Survivable(picks: seq<Trade>, initial: real) {
    initial > 0.0 && forall i :: 0 <= i < |picks| ==> picks[i].ret > -1.0 && 0.0 <= picks[i].adverse <= initial
  }

  lemma GrownIsPositive(equity: real, ret: real)
    requires equity > 0.0 && ret > -1.0
    ensures Grown(equity, ret) > 0.0
  {}

  lemma TroughIsBounded(equity: real, adverse: real, initial: real)
    requires equity > 0.0 && initial > 0.0 && 0.0 <= adverse <= initial
    ensures 0.0 <= Trough(equity, adverse, initial) <= equity
    ensures adverse == 0.0 ==> Trough(equity, adverse, initial) == equity
  {}

  /** With survivable trades the equity path never reaches zero. */
  lemma {:induction false} CurveIsPositive(picks: seq<Trade>, initial: real)
    requires Survivable(picks, initial)
    ensures Positive(Curve(picks, initial))
  {
    if picks != [] {
      var front := picks[..|picks| - 1];
      CurveIsPositive(front, initial);
      CurveShape(front, initial);
      GrownIsPositive(Curve(front, initial)[|front|], picks[|picks| - 1].ret);
    }
  }

  /** Peak and worst fall after one more trade: first its trough, then its result. */
  function AfterTrade(peak: real, worst: real, equity: real, trade: Trade, initial: real): (real, real)
    requires initial != 0.0
  {
    var excursion, next := Excursion(equity, trade.adverse, initial), Grown(equity, trade.ret);
    var dipped := if excursion > 0.0 then Max(worst, Fall(peak, equity - excursion)) else worst;
    var top := Max(peak, next);
    (top, Max(dipped, Fall(top, next)))
  }

  method TrackDrawdown(peak: real, worst: real, equity: real, trade: Trade, initial: real)
    returns (top: real, deepest: real)
    requires initial != 0.0
    ensures (top, deepest) == AfterTrade(peak, worst, equity, trade, initial)
    ensures deepest >= worst
  {
    hide Excursion, Grown, Fall;
    top, deepest := peak, worst;
    var excursion := Excursion(equity, trade.adverse, initial);
    if excursion > 0.0 {
      var dip := Fall(peak, equity - excursion);
      if dip > deepest {
        deepest := dip;
      }
    }
    var next := Grown(equity, trade.ret);
    if next > peak {
      top := next;
    }
    var fall := Fall(top, next);
    if fall > deepest {
      deepest := fall;
    }
  }

  /** The running statistics describe the sample. */
  ghost predicate Describes(xs: seq<real>, wins: nat, mean: real, m2: real) {
    wins as real == Total(WINNER, xs) && mean == Mean(xs) && m2 == Deviations(xs, Mean(xs))
  }

  lemma DescribesNext(xs: seq<real>, wins: nat, mean: real, m2: real, x: real)
    requires Describes(xs, wins, mean, m2)
    ensures var next := NextMean(mean, x, |xs + [x]| as real);
            Describes(xs + [x], if x > 0.0 then wins + 1 else wins, next, NextM2(m2, mean, next, x))
  {
    hide Mean, Deviations, Total, NextMean, NextM2;
    WelfordStep(xs, x);
    TotalAppend(WINNER, xs, x);
  }

  /** Peak and worst fall are those of the curve annotated with troughs. */
  ghost predicate Drawn(picks: seq<Trade>, initial: real, peak: real, worst: real)
    requires initial != 0.0
  {
    peak == Peak(WithTroughs(picks, initial)) && worst == MaxDrawdown(WithTroughs(picks, initial))
  }

  /** What a path reports of the trades it picks: the compounded curve and its end, the wins and both moments. */
  ghost predicate Follows(p: Path, trades: seq<Trade>, order: seq<nat>, initial: real)
    requires Indexes(trades, order)
  {
    && p.points == Curve(Picks(trades, order), initial)
    && p.equity == initial * Growth(Returns(Picks(trades, order)))
    && Describes(Returns(Picks(trades, order)), p.wins, p.mean, p.m2)
  }

  /** One simulated path: the same loop serves the shuffled and the bootstrapped order. */
  method SimulatePath(trades: seq<Trade>, order: seq<nat>, initial: real) returns (p: Path)
    requires Indexes(trades, order) && initial != 0.0
    ensures Follows(p, trades, order, initial)
    ensures p.worst >= 0.0 && Drawn(Picks(trades, order), initial, p.peak, p.worst)
  {
    hide Describes, Drawn, AfterTrade, Grown, Returns, Curve, NextMean, NextM2;
    var equity, peak, worst, wins, mean, m2 := initial, initial, 0.0, 0, 0.0, 0.0;
    var points := [initial];
    ghost var all := Picks(trades, order);
    StartOfPath(initial);
    assert all[..0] == [];
    for i := 0 to |order|
      invariant points == Curve(all[..i], initial) && |points| == i + 1 && equity == points[i]
      invariant Describes(Returns(all[..i]), wins, mean, m2)
      invariant worst >= 0.0
      invariant Drawn(all[..i], initial, peak, worst)
    {
      var trade := trades[order[i]];
      assert trade == all[i];
      ReturnsAppend(all, i);
      CurveAppend(all, i, initial);
      DescribesNext(Returns(all[..i]), wins, mean, m2, trade.ret);
      DrawnNext(all, i, initial, peak, worst);

      peak, worst := TrackDrawdown(peak, worst, equity, trade, initial);
      if trade.ret > 0.0 {
        wins := wins + 1;
      }
      var nextMean := NextMean(mean, trade.ret, (i + 1) as real);
      m2 := NextM2(m2, mean, nextMean, trade.ret);
      mean := nextMean;
      equity := Grown(equity, trade.ret);
      points := points + [equity];
    }
    assert all[..|order|] == all;
    CurveShape(all, initial);
    return Path(equity, peak, worst, wins, mean, m2, points);
  }

  lemma ReturnsAppend(all: seq<Trade>, i: nat)
    requires i < |all|
    ensures |Returns(all[..i])| == i
    ensures Returns(all[..i + 1]) == Returns(all[..i]) + [all[i].ret]
  {}

  lemma CurveAppend(all: seq<Trade>, i: nat, initial: real)
    requires i < |all|
    ensures |Curve(all[..i], initial)| == i + 1
    ensures Curve(all[..i + 1], initial) == Curve(all[..i], initial) + [Grown(Curve(all[..i], initial)[i], all[i].ret)]
  {
    CurveShape(all[..i], initial);
    assert all[..i + 1][..i] == all[..i];
  }

  lemma StartOfPath(initial: real)
    requires initial != 0.0
    ensures WithTroughs([], initial) == [initial] && Curve([], initial) == [initial] && Returns([]) == []
    ensures Peak([initial]) == initial && MaxDrawdown([initial]) == 0.0
    ensures Drawn([], initial, initial, 0.0) && Describes(Returns([]), 0, 0.0, 0.0)
  {}

  /** Where the running peak stands and what it has fallen to, two points later. */
  lemma TwoMorePoints(curve: seq<real>, x: real, y: real)
    requires curve != [] && x <= Peak(curve)
    ensures Peak(curve + [x, y]) == Max(Peak(curve), y)
    ensures MaxDrawdown(curve + [x, y]) ==
            Max(Max(MaxDrawdown(curve), Fall(Peak(curve), x)), Fall(Max(Peak(curve), y), y))
  {
    hide Fall;
    assert (curve + [x, y])[..|curve| + 1] == curve + [x];
    assert (curve + [x])[..|curve|] == curve;
  }

  lemma TroughIsLower(equity: real, adverse: real, initial: real)
    requires initial != 0.0
    ensures Trough(equity, adverse, initial) <= equity
    ensures Excursion(equity, adverse, initial) <= 0.0 ==> Trough(equity, adverse, initial) == equity
    ensures Excursion(equity, adverse, initial) > 0.0 ==>
              Trough(equity, adverse, initial) == equity - Excursion(equity, adverse, initial)
  {
    hide Excursion;
  }

  /** What one iteration of the path loop adds is what the two new points of the annotated curve add. */
  lemma DrawnNext(all: seq<Trade>, i: nat, initial: real, peak: real, worst: real)
    requires i < |all| && initial != 0.0 && Drawn(all[..i], initial, peak, worst)
    requires |Curve(all[..i], initial)| == i + 1
    ensures var after := AfterTrade(peak, worst, Curve(all[..i], initial)[i], all[i], initial);
            Drawn(all[..i + 1], initial, after.0, after.1)
  {
    hide Excursion, Trough, Grown, Fall, Peak, MaxDrawdown, Curve;
    var before, equity := all[..i], Curve(all[..i], initial)[i];
    assert all[..i + 1][..i] == before && all[..i + 1][i] == all[i];
    TroughIsLower(equity, all[i].adverse, initial);
    var marked := WithTroughs(before, initial);
    EquityIsLastPoint(before, initial);
    var at := PeakIsMaximum(marked);
    TwoMorePoints(marked, Trough(equity, all[i].adverse, initial), Grown(equity, all[i].ret));
    LastFallIsCounted(marked);
  }

  lemma {:induction false} EquityIsLastPoint(picks: seq<Trade>, initial: real)
    requires initial != 0.0
    ensures var marked, curve := WithTroughs(picks, initial), Curve(picks, initial);
            marked != [] && curve != [] && marked[|marked| - 1] == curve[|curve| - 1]
  {}

  lemma LastFallIsCounted(curve: seq<real>)
    requires curve != []
    ensures Fall(Peak(curve), curve[|curve| - 1]) <= MaxDrawdown(curve)
  {}

  /** Two samples with the same trades in any order: same profit, wins, mean and sum of squares. */
  lemma PathStatisticsIgnoreOrder(xs: seq<real>, ys: seq<real>, initial: real)
    requires multiset(xs) == multiset(ys)
    ensures initial * Growth(xs) == initial * Growth(ys)
    ensures Total(WINNER, xs) == Total(WINNER, ys)
    ensures Mean(xs) == Mean(ys)
    ensures Deviations(xs, Mean(xs)) == Deviations(ys, Mean(ys))
  {
    hide Growth, Total;
    OrderIsIrrelevant(WINNER, xs, ys);
    OrderIsIrrelevant(IDENTITY, xs, ys);
    OrderIsIrrelevant(SQUARED, xs, ys);
    DeviationsFromMean(xs);
    DeviationsFromMean(ys);
    MeanOfTotal(xs);
    MeanOfTotal(ys);
  }

  function PickedReturns(trades: seq<Trade>, order: seq<nat>): seq<real>
    requires Indexes(trades, order)
  {
    Returns(Picks(trades, order))
  }

  lemma PickedConcat(trades: seq<Trade>, xs: seq<nat>, ys: seq<nat>)
    requires Indexes(trades, xs + ys)
    ensures Indexes(trades, xs) && Indexes(trades, ys)
    ensures PickedReturns(trades, xs + ys) == PickedReturns(trades, xs) + PickedReturns(trades, ys)
  {
    assert forall i :: 0 <= i < |xs| ==> xs[i] == (xs + ys)[i];
    assert forall i :: 0 <= i < |ys| ==> ys[i] == (xs + ys)[|xs| + i];
  }

  lemma InsertAnywhere(front: seq<real>, head: seq<real>, middle: seq<real>, tail: seq<real>)
    requires multiset(front) == multiset(head + tail)
    ensures multiset(front + middle) == multiset(head + middle + tail)
  {}

  predicate Indexes(trades: seq<Trade>, order: seq<nat>) {
    forall i :: 0 <= i < |order| ==> order[i] < |trades|
  }

  /** Two orders with the same indices differ by where the last one sits. */
  lemma SplitOrder(order: seq<nat>, order': seq<nat>) returns (head: seq<nat>, tail: seq<nat>)
    requires multiset(order) == multiset(order') && order != []
    ensures order' == head + [order[|order| - 1]] + tail
    ensures multiset(order[..|order| - 1]) == multiset(head + tail)
  {
    var front, x := order[..|order| - 1], order[|order| - 1];
    assert x in multiset(order');
    var j :| 0 <= j < |order'| && order'[j] == x;
    head, tail := order'[..j], order'[j + 1..];
    assert order == front + [x];
    assert multiset(order) == multiset(front) + multiset{x};
    assert order' == head + [x] + tail;
    assert multiset(order') == multiset(head) + multiset{x} + multiset(tail);
    assert multiset(front) == multiset(order) - multiset{x};
    assert multiset(head + tail) == multiset(order') - multiset{x};
  }

  lemma IndexesOfPermutation(trades: seq<Trade>, order: seq<nat>, order': seq<nat>)
    requires multiset(order) == multiset(order') && Indexes(trades, order)
    ensures Indexes(trades, order')
  {
    forall i | 0 <= i < |order'| ensures order'[i] < |trades| {
      assert order'[i] in multiset(order');
      assert order'[i] in order;
    }
  }

  /** A shuffle of the trade indices only reorders the sample. */
  lemma {:induction false} ShuffleReorders(trades: seq<Trade>, order: seq<nat>, order': seq<nat>)
    requires multiset(order) == multiset(order') && Indexes(trades, order)
    ensures Indexes(trades, order')
    ensures multiset(PickedReturns(trades, order)) == multiset(PickedReturns(trades, order'))
  {
    hide PickedReturns;
    IndexesOfPermutation(trades, order, order');
    if order == [] {
      assert |multiset(order')| == 0;
      assert order' == [];
    } else {
      var front, x := order[..|order| - 1], order[|order| - 1];
      var head, tail := SplitOrder(order, order');
      assert order == front + [x];
      ShuffleReorders(trades, front, head + tail);
      PickedConcat(trades, front, [x]);
      PickedConcat(trades, head + [x], tail);
      PickedConcat(trades, head, [x]);
      PickedConcat(trades, head, tail);
      InsertAnywhere(PickedReturns(trades, front), PickedReturns(trades, head), PickedReturns(trades, [x]),
                     PickedReturns(trades, tail));
    }
  }

  /**
   * However the same trades are shuffled, every path ends with the same equity, as many points and wins, and the same
   * mean and sum of squared deviations of its returns.
   */
  lemma ShuffledPathsAgree(trades: seq<Trade>, order: seq<nat>, order': seq<nat>, initial: real, p: Path, p': Path)
    requires multiset(order) == multiset(order') && Indexes(trades, order) && Indexes(trades, order')
    requires Follows(p, trades, order, initial) && Follows(p', trades, order', initial)
    ensures p'.equity == p.equity && |p'.points| == |p.points| && p'.wins == p.wins
    ensures p'.mean == p.mean && p'.m2 == p.m2
  {
    hide Growth, Total, Mean, Deviations;
    ShuffleReorders(trades, order, order');
    PathStatisticsIgnoreOrder(PickedReturns(trades, order), PickedReturns(trades, order'), initial);
    assert |multiset(order)| == |order| && |multiset(order')| == |order'|;
    CurveShape(Picks(trades, order), initial);
    CurveShape(Picks(trades, order'), initial);
  }

  lemma {:induction false} TroughedCurveBounds(picks: seq<Trade>, initial: real)
    requires Survivable(picks, initial)
    ensures forall i :: 0 <= i < |WithTroughs(picks, initial)| ==> WithTroughs(picks, initial)[i] >= 0.0
    ensures Peak(WithTroughs(picks, initial)) > 0.0
    ensures MaxDrawdown(WithTroughs(picks, initial)) <= 1.0
  {
    hide Trough, Grown, Fall;
    if picks == [] {
      StartOfPath(initial);
    } else {
      var front, last := picks[..|picks| - 1], picks[|picks| - 1];
      TroughedCurveBounds(front, initial);
      CurveShape(front, initial);
      CurveIsPositive(front, initial);
      var equity := Curve(front, initial)[|front|];
      TroughIsBounded(equity, last.adverse, initial);
      GrownIsPositive(equity, last.ret);
      var marked := WithTroughs(front, initial);
      EquityIsLastPoint(front, initial);
      var at := PeakIsMaximum(marked);
      var trough, next := Trough(equity, last.adverse, initial), Grown(equity, last.ret);
      TwoMorePoints(marked, trough, next);
      FallAtMostOne(Peak(marked), trough);
      FallAtMostOne(Max(Peak(marked), next), next);
    }
  }

  lemma FallAtMostOne(peak: real, value: real)
    requires peak > 0.0 && 0.0 <= value
    ensures Fall(peak, value) <= 1.0
  {}

  /** With survivable trades every path stays positive and never draws down by more than everything. */
  lemma SurvivablePathIsBounded(picks: seq<Trade>, initial: real)
    requires Survivable(picks, initial)
    ensures Positive(Curve(picks, initial))
    ensures 0.0 <= MaxDrawdown(WithTroughs(picks, initial)) <= 1.0
  {
    CurveIsPositive(picks, initial);
    TroughedCurveBounds(picks, initial);
    DrawdownIsNonNegative(WithTroughs(picks, initial));
  }

  lemma {:induction false} DrawdownIsNonNegative(curve: seq<real>)
    ensures MaxDrawdown(curve) >= 0.0
  {}

  /** An excursion counts in full at the initial capital, in proportion above and below it, and not at all in ruin. */
  lemma ExcursionScales(equity: real, adverse: real, initial: real)
    requires initial > 0.0
    ensures Excursion(initial, adverse, initial) == adverse
    ensures equity >= 0.0 ==> Excursion(equity, adverse, initial) * initial == adverse * equity
    ensures equity <= 0.0 ==> Excursion(equity, adverse, initial) == 0.0
  {
    QuotientTimesDivisor(equity, initial);
    assert initial / initial == 1.0;
    if equity >= 0.0 {
      NonNegativeQuotient(equity, initial);
    } else {
      ScaledQuotient(equity, initial);
    }
  }

  lemma ScaledQuotient(x: real, y: real)
    requires x < 0.0 && y > 0.0
    ensures x / y <= 0.0
  {
    NonNegativeQuotient(-x, y);
  }
}
