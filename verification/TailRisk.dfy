/** Percentiles, value at risk and its tail mean over sorted Monte Carlo profits (backtest/src/monte_carlo.rs). */
module TailRisk {
  import opened Reals

  predicate Sorted(xs: seq<real>) {
    forall i, j :: 0 <= i <= j < |xs| ==> xs[i] <= xs[j]
  }

  // ---- Sorting ----

  function Inserted(xs: seq<real>, x: real): seq<real> {
    if xs == [] || xs[|xs| - 1] <= x then xs + [x] else Inserted(xs[..|xs| - 1], x) + [xs[|xs| - 1]]
  }

  /** Any sort of reals gives this sequence; see `SortIsUnique`. */
  function Sort(xs: seq<real>): seq<real> {
    if xs == [] then [] else Inserted(Sort(xs[..|xs| - 1]), xs[|xs| - 1])
  }

  lemma UpperBoundKeepsSorted(xs: seq<real>, x: real)
    requires Sorted(xs) && forall i :: 0 <= i < |xs| ==> xs[i] <= x
    ensures Sorted(xs + [x])
  {}

  lemma {:induction false} InsertedKeepsElements(xs: seq<real>, x: real)
    ensures multiset(Inserted(xs, x)) == multiset(xs) + multiset{x}
  {
    if xs != [] && xs[|xs| - 1] > x {
      InsertedKeepsElements(xs[..|xs| - 1], x);
      assert xs == xs[..|xs| - 1] + [xs[|xs| - 1]];
    }
  }

  lemma {:induction false} InsertedIsBounded(xs: seq<real>, x: real, bound: real)
    requires x <= bound && forall i :: 0 <= i < |xs| ==> xs[i] <= bound
    ensures forall i :: 0 <= i < |Inserted(xs, x)| ==> Inserted(xs, x)[i] <= bound
  {
    if xs != [] && xs[|xs| - 1] > x {
      InsertedIsBounded(xs[..|xs| - 1], x, bound);
    }
  }

  lemma {:induction false} InsertedIsSorted(xs: seq<real>, x: real)
    requires Sorted(xs)
    ensures Sorted(Inserted(xs, x))
  {
    if xs == [] || xs[|xs| - 1] <= x {
      UpperBoundKeepsSorted(xs, x);
    } else {
      var front, last := xs[..|xs| - 1], xs[|xs| - 1];
      InsertedIsSorted(front, x);
      InsertedIsBounded(front, x, last);
      UpperBoundKeepsSorted(Inserted(front, x), last);
    }
  }

  lemma {:induction false} SortIsSorted(xs: seq<real>)
    ensures Sorted(Sort(xs)) && multiset(Sort(xs)) == multiset(xs) && |Sort(xs)| == |xs|
  {
    if xs != [] {
      var front, last := xs[..|xs| - 1], xs[|xs| - 1];
      SortIsSorted(front);
      InsertedIsSorted(Sort(front), last);
      InsertedKeepsElements(Sort(front), last);
      assert xs == front + [last];
    }
    assert |multiset(Sort(xs))| == |multiset(xs)|;
  }

  lemma LastIsGreatest(xs: seq<real>, x: real)
    requires Sorted(xs) && x in multiset(xs)
    ensures xs != [] && x <= xs[|xs| - 1]
  {}

  lemma FrontOfSorted(xs: seq<real>)
    requires Sorted(xs) && xs != []
    ensures Sorted(xs[..|xs| - 1])
  {}

  lemma FrontWithoutLast(xs: seq<real>)
    requires xs != []
    ensures multiset(xs[..|xs| - 1]) == multiset(xs) - multiset{xs[|xs| - 1]}
    ensures xs[|xs| - 1] in multiset(xs)
  {
    assert xs == xs[..|xs| - 1] + [xs[|xs| - 1]];
  }

  lemma SameLast(xs: seq<real>, ys: seq<real>)
    requires Sorted(xs) && Sorted(ys) && multiset(xs) == multiset(ys) && |xs| == |ys| > 0
    ensures xs[|xs| - 1] == ys[|ys| - 1]
    ensures multiset(xs[..|xs| - 1]) == multiset(ys[..|ys| - 1])
  {
    hide Sorted;
    LastIsGreatest(ys, xs[|xs| - 1]);
    LastIsGreatest(xs, ys[|ys| - 1]);
    FrontWithoutLast(xs);
    FrontWithoutLast(ys);
  }

  /** Sorted sequences with the same elements are equal, so the choice of sorting algorithm is immaterial. */
  lemma {:induction false} SortIsUnique(xs: seq<real>, ys: seq<real>)
    requires Sorted(xs) && Sorted(ys) && multiset(xs) == multiset(ys)
    ensures xs == ys
  {
    hide Sorted;
    SameElementsSameLength(xs, ys);
    if xs != [] {
      var front, front' := xs[..|xs| - 1], ys[..|ys| - 1];
      FrontOfSorted(xs);
      FrontOfSorted(ys);
      SameLast(xs, ys);
      SortIsUnique(front, front');
      assert xs == front + [xs[|xs| - 1]] && ys == front' + [ys[|ys| - 1]];
    }
  }

  // ---- Percentiles ----

  /** Nearest rank of percentile `p` among `n` samples, rounding half up. */
  function Rank(p: nat, n: nat): int
    requires n > 0
  {
    (p as real / 100.0 * (n - 1) as real + 0.5).Floor
  }

  function PercentileFromSorted(xs: seq<real>, p: nat): real {
    if xs == [] then 0.0
    else
      RankInRange(p, |xs|);
      var index := Rank(p, |xs|);
      xs[if index < |xs| then index else |xs| - 1]
  }

  lemma RankInRange(p: nat, n: nat)
    requires n > 0
    ensures 0 <= Rank(p, n)
    ensures p <= 100 ==> Rank(p, n) <= n - 1
  {}

  lemma RankMonotone(p: nat, q: nat, n: nat)
    requires n > 0 && p <= q
    ensures Rank(p, n) <= Rank(q, n)
  {}

  /** Percentiles of a sorted sample are samples, and they rise with `p`. */
  lemma PercentilesOrdered(xs: seq<real>, p: nat, q: nat)
    requires Sorted(xs) && p <= q <= 100
    ensures PercentileFromSorted(xs, p) <= PercentileFromSorted(xs, q)
    ensures if xs == [] then PercentileFromSorted(xs, p) == 0.0 else PercentileFromSorted(xs, p) in xs
    ensures xs != [] ==> PercentileFromSorted(xs, 0) == xs[0] && PercentileFromSorted(xs, 100) == xs[|xs| - 1]
  {
    if xs != [] {
      RankInRange(p, |xs|);
      RankInRange(q, |xs|);
      RankMonotone(p, q, |xs|);
      assert Rank(0, |xs|) == 0 && Rank(100, |xs|) == |xs| - 1;
    }
  }

  // ---- Fan chart ----

  function Column(paths: seq<seq<real>>, step: nat): seq<real> {
    if paths == [] then []
    else
      var last := paths[|paths| - 1];
      Column(paths[..|paths| - 1], step) + if step < |last| then [last[step]] else []
  }

  datatype Band = Band(p5: real, p25: real, p50: real, p75: real, p95: real) {
    predicate Ordered() {
      p5 <= p25 <= p50 <= p75 <= p95
    }
  }

  function BandOf(sorted: seq<real>): Band {
    Band(PercentileFromSorted(sorted, 5), PercentileFromSorted(sorted, 25), PercentileFromSorted(sorted, 50),
         PercentileFromSorted(sorted, 75), PercentileFromSorted(sorted, 95))
  }

  /** Percentile bands of the equity paths, one per trade step. */
  method FanChart(paths: seq<seq<real>>, length: nat, initial: real) returns (chart: seq<Band>)
    ensures |chart| == length
    ensures forall step :: 0 <= step < length ==> chart[step].Ordered()
    ensures forall step :: 0 <= step < length ==>
              chart[step] == if Column(paths, step) == [] then Band(initial, initial, initial, initial, initial)
                             else BandOf(Sort(Column(paths, step)))
  {
    chart := [];
    for step := 0 to length
      invariant |chart| == step
      invariant forall k :: 0 <= k < step ==> chart[k].Ordered()
      invariant forall k :: 0 <= k < step ==>
                  chart[k] == if Column(paths, k) == [] then Band(initial, initial, initial, initial, initial)
                              else BandOf(Sort(Column(paths, k)))
    {
      hide Rank, PercentileFromSorted;
      var equities := Column(paths, step);
      if equities == [] {
        chart := chart + [Band(initial, initial, initial, initial, initial)];
      } else {
        var sorted := Sort(equities);
        SortIsSorted(equities);
        BandIsOrdered(sorted);
        chart := chart + [BandOf(sorted)];
      }
    }
  }

  /** Of a hundred and one sorted samples the band takes those that stand at its percentages. */
  lemma BandOfHundredAndOne(sorted: seq<real>)
    requires |sorted| == 101
    ensures BandOf(sorted) == Band(sorted[5], sorted[25], sorted[50], sorted[75], sorted[95])
  {}

  lemma BandIsOrdered(sorted: seq<real>)
    requires Sorted(sorted)
    ensures BandOf(sorted).Ordered()
  {}

  // ---- Value at risk ----

  datatype Tail = Tail(valueAtRisk: real, tailMean: real)

  function LossOf(profit: real): real {
    if profit < 0.0 then -profit else 0.0
  }

  /** Index of the sample at the worst twentieth. */
  function Cutoff(n: nat): nat {
    n / 20
  }

  /** The tail figures of `build_monte_carlo_result`, which has no clamp. */
  function PlainTail(sorted: seq<real>): Tail
    requires sorted != []
  {
    var k := Cutoff(|sorted|);
    var valueAtRisk := LossOf(sorted[k]);
    Tail(valueAtRisk, if k > 0 then LossOf(Mean(sorted[..k])) else valueAtRisk)
  }

  /** Least of zero and the samples. */
  function LeastBelowZero(xs: seq<real>): real {
    if xs == [] then 0.0 else Min(LeastBelowZero(xs[..|xs| - 1]), xs[|xs| - 1])
  }

  /** The main path before its final clamp. */
  function UnclampedVar(sorted: seq<real>): real
    requires sorted != []
  {
    var k := Cutoff(|sorted|);
    var raw := LossOf(sorted[k]);
    if raw <= 0.0 && MainTailMean(sorted) > 0.0 then Abs(LeastBelowZero(sorted[..k])) else raw
  }

  function MainTailMean(sorted: seq<real>): real
    requires sorted != []
  {
    var k := Cutoff(|sorted|);
    if k > 0 then LossOf(Mean(sorted[..k])) else 0.0
  }

  /** The tail figures of the main path, clamped so that value at risk never exceeds the tail mean. */
  function MainTail(sorted: seq<real>): Tail
    requires sorted != []
  {
    Tail(Max(Min(UnclampedVar(sorted), MainTailMean(sorted)), 0.0), MainTailMean(sorted))
  }

  lemma {:induction false} SumBelow(xs: seq<real>, bound: real)
    requires forall i :: 0 <= i < |xs| ==> xs[i] <= bound
    ensures Sum(xs) <= bound * |xs| as real
  {
    if xs != [] {
      SumBelow(xs[..|xs| - 1], bound);
    }
  }

  lemma {:induction false} SumAbove(xs: seq<real>, bound: real)
    requires forall i :: 0 <= i < |xs| ==> xs[i] >= bound
    ensures Sum(xs) >= bound * |xs| as real
  {
    if xs != [] {
      SumAbove(xs[..|xs| - 1], bound);
    }
  }

  lemma MeanBetween(xs: seq<real>, low: real, high: real)
    requires xs != [] && forall i :: 0 <= i < |xs| ==> low <= xs[i] <= high
    ensures low <= Mean(xs) <= high
  {
    hide Sum;
    SumAbove(xs, low);
    SumBelow(xs, high);
    QuotientTimesDivisor(Sum(xs), |xs| as real);
    CancelFactor(|xs| as real, low, Mean(xs));
    CancelFactor(|xs| as real, Mean(xs), high);
  }

  /** The mean of the worst twentieth never exceeds the sample at its edge. */
  lemma TailMeanBelowCutoff(sorted: seq<real>)
    requires Sorted(sorted) && |sorted| >= 20
    ensures 0 < Cutoff(|sorted|) < |sorted|
    ensures sorted[0] <= Mean(sorted[..Cutoff(|sorted|)]) <= sorted[Cutoff(|sorted|)]
  {
    hide Mean;
    var k := Cutoff(|sorted|);
    MeanBetween(sorted[..k], sorted[0], sorted[k]);
  }

  lemma {:induction false} LeastOfSorted(xs: seq<real>)
    requires Sorted(xs) && xs != []
    ensures LeastBelowZero(xs) == Min(xs[0], 0.0)
  {
    if |xs| > 1 {
      LeastOfSorted(xs[..|xs| - 1]);
    } else {
      assert xs[..0] == [];
    }
  }

  /** Value at risk never exceeds the tail mean in the unclamped builder, for every sample size. */
  lemma PlainTailIsOrdered(sorted: seq<real>)
    requires Sorted(sorted) && sorted != []
    ensures 0.0 <= PlainTail(sorted).valueAtRisk <= PlainTail(sorted).tailMean
  {
    hide Mean;
    if |sorted| >= 20 {
      TailMeanBelowCutoff(sorted);
    }
  }

  /**
   * In the main path the clamp never lowers a loss at the cutoff; and whenever only the tail behind a non-negative
   * cutoff loses, it replaces the worst sample by the tail mean. Below twenty samples, where no sample lies behind the
   * cutoff, it takes every loss down to zero.
   */
  lemma ClampEffect(sorted: seq<real>)
    requires Sorted(sorted) && sorted != []
    ensures |sorted| >= 20 && sorted[Cutoff(|sorted|)] < 0.0 ==> MainTail(sorted).valueAtRisk == UnclampedVar(sorted)
    ensures sorted[Cutoff(|sorted|)] >= 0.0 ==> MainTail(sorted).valueAtRisk == MainTail(sorted).tailMean
    ensures |sorted| < 20 ==> MainTail(sorted) == Tail(0.0, 0.0)
  {
    hide Mean, Sum;
    var k := Cutoff(|sorted|);
    if |sorted| >= 20 {
      TailMeanBelowCutoff(sorted);
      LeastOfSorted(sorted[..k]);
    }
  }

  /**
   * Both builders report the same tail exactly when, with at least twenty samples, the cutoff sample loses or the
   * worst twentieth does not; with fewer, when the worst sample does not lose.
   */
  lemma BuildersAgreeIff(sorted: seq<real>)
    requires Sorted(sorted) && sorted != []
    ensures MainTail(sorted) == PlainTail(sorted) <==>
            if |sorted| >= 20 then sorted[Cutoff(|sorted|)] < 0.0 || Mean(sorted[..Cutoff(|sorted|)]) >= 0.0
            else sorted[0] >= 0.0
  {
    hide Mean, Sum;
    if |sorted| >= 20 {
      TailMeanBelowCutoff(sorted);
      ClampEffect(sorted);
    }
  }
}
