/** Chaining out-of-sample curves of a walk-forward analysis (backtest/src/engine.rs). */
module Stitching {
  import opened Reals

  // ---- Chaining ----

  function Shifted(xs: seq<real>, offset: real): (r: seq<real>)
    ensures |r| == |xs|
  {
    seq(|xs|, i requires 0 <= i < |xs| => xs[i] + offset)
  }

  /** A chain continued by the moved points of a window after its first. */
  function Joined(merged: seq<real>, curve: seq<real>): (r: seq<real>)
    requires merged != [] && curve != []
    ensures |r| == |merged| + |curve| - 1
  {
    merged + Shifted(curve[1..], merged[|merged| - 1] - curve[0])
  }

  /**
   * The chain extended by one window, moved to start where the chain ends; windows of fewer than two points add
   * nothing.
   */
  function Chained(merged: seq<real>, curve: seq<real>): seq<real> {
    if |curve| < 2 then merged
    else if merged == [] then curve
    else Joined(merged, curve)
  }

  function Stitched(curves: seq<seq<real>>): seq<real> {
    if curves == [] then [] else Chained(Stitched(curves[..|curves| - 1]), curves[|curves| - 1])
  }

  method Stitch(curves: seq<seq<real>>) returns (merged: seq<real>)
    ensures merged == Stitched(curves)
  {
    merged := [];
    for i := 0 to |curves|
      invariant merged == Stitched(curves[..i])
    {
      assert curves[..i + 1][..i] == curves[..i];
      merged := PushWindow(merged, curves[i]);
    }
    assert curves[..|curves|] == curves;
  }

  method PushWindow(before: seq<real>, curve: seq<real>) returns (merged: seq<real>)
    ensures merged == Chained(before, curve)
  {
    merged := before;
    if |curve| < 2 {
      return;
    }
    if merged == [] {
      merged := curve;
    } else {
      var offset := merged[|merged| - 1] - curve[0];
      for k := 1 to |curve|
        invariant merged == before + Shifted(curve[1..], offset)[..k - 1]
      {
        merged := merged + [curve[k] + offset];
      }
    }
  }

  // ---- What the chain keeps ----

  /** Differences between neighbouring points. */
  function Increments(xs: seq<real>): (r: seq<real>)
    ensures |r| == if |xs| < 2 then 0 else |xs| - 1
  {
    if |xs| < 2 then [] else seq(|xs| - 1, i requires 0 <= i < |xs| - 1 => xs[i + 1] - xs[i])
  }

  /** The increments of all the windows, one after another. */
  function AllIncrements(curves: seq<seq<real>>): seq<real> {
    if curves == [] then [] else AllIncrements(curves[..|curves| - 1]) + Increments(curves[|curves| - 1])
  }

  predicate Usable(curve: seq<real>) {
    |curve| >= 2
  }

  function FirstUsable(curves: seq<seq<real>>): Option<real> {
    if curves == [] then None
    else
      var front := FirstUsable(curves[..|curves| - 1]);
      var last := curves[|curves| - 1];
      if front.None? && Usable(last) then Some(last[0]) else front
  }

  lemma ChainedIncrements(merged: seq<real>, curve: seq<real>)
    requires merged == [] || |merged| >= 2
    ensures Increments(Chained(merged, curve)) == Increments(merged) + Increments(curve)
    ensures merged != [] ==> Chained(merged, curve) != [] && Chained(merged, curve)[0] == merged[0]
    ensures Chained(merged, curve) == [] || |Chained(merged, curve)| >= 2
  {
    if |curve| >= 2 && merged != [] {
      ShiftedIncrements(merged, curve);
    }
  }

  lemma JoinedAt(merged: seq<real>, curve: seq<real>, k: nat)
    requires merged != [] && curve != [] && k < |merged| + |curve| - 1
    ensures k < |merged| ==> Joined(merged, curve)[k] == merged[k]
    ensures k >= |merged| - 1 ==>
            Joined(merged, curve)[k] == curve[k - (|merged| - 1)] + (merged[|merged| - 1] - curve[0])
  {}

  lemma ShiftedIncrements(merged: seq<real>, curve: seq<real>)
    requires |merged| >= 2 && |curve| >= 2
    ensures Increments(Joined(merged, curve)) == Increments(merged) + Increments(curve)
  {
    hide Increments, Joined;
    var whole, m := Joined(merged, curve), |merged| - 1;
    var left, right := Increments(whole), Increments(merged) + Increments(curve);
    forall k: nat | k < |left| ensures left[k] == right[k] {
      IncrementAt(whole, k);
      JoinedAt(merged, curve, k);
      JoinedAt(merged, curve, k + 1);
      if k < m {
        IncrementAt(merged, k);
      } else {
        IncrementAt(curve, k - m);
      }
    }
  }

  lemma IncrementAt(xs: seq<real>, k: nat)
    requires k + 1 < |xs|
    ensures Increments(xs)[k] == xs[k + 1] - xs[k]
  {}

  /**
   * Stitching keeps every increment of every window in order and starts at the first usable window's first point;
   * it is empty exactly when no window has two points.
   */
  lemma {:induction false} StitchingKeepsIncrements(curves: seq<seq<real>>)
    ensures Increments(Stitched(curves)) == AllIncrements(curves)
    ensures Stitched(curves) == [] || |Stitched(curves)| >= 2
    ensures Stitched(curves) == [] <==> FirstUsable(curves) == None
    ensures Stitched(curves) != [] ==> FirstUsable(curves) == Some(Stitched(curves)[0])
  {
    if curves != [] {
      var n := |curves| - 1;
      StitchingKeepsIncrements(curves[..n]);
      ChainedIncrements(Stitched(curves[..n]), curves[n]);
    }
  }

  lemma {:induction false} Telescopes(xs: seq<real>)
    requires xs != []
    ensures Sum(Increments(xs)) == xs[|xs| - 1] - xs[0]
  {
    if |xs| > 1 {
      var n := |xs| - 1;
      Telescopes(xs[..n]);
      assert Increments(xs)[..n - 1] == Increments(xs[..n]);
    }
  }

  function TotalSteps(curves: seq<seq<real>>): nat {
    if curves == [] then 0
    else TotalSteps(curves[..|curves| - 1]) + if Usable(curves[|curves| - 1]) then |curves[|curves| - 1]| - 1 else 0
  }

  function TotalChange(curves: seq<seq<real>>): real {
    if curves == [] then 0.0
    else
      var last := curves[|curves| - 1];
      TotalChange(curves[..|curves| - 1]) + if Usable(last) then last[|last| - 1] - last[0] else 0.0
  }

  lemma {:induction false} IncrementsInTotal(curves: seq<seq<real>>)
    ensures |AllIncrements(curves)| == TotalSteps(curves)
    ensures Sum(AllIncrements(curves)) == TotalChange(curves)
  {
    if curves != [] {
      var n := |curves| - 1;
      IncrementsInTotal(curves[..n]);
      SumConcat(AllIncrements(curves[..n]), Increments(curves[n]));
      if Usable(curves[n]) {
        Telescopes(curves[n]);
      }
    }
  }

  /** A stitched curve has one point more than the windows have steps, and gains what the windows gain together. */
  lemma StitchedLengthAndChange(curves: seq<seq<real>>)
    ensures var r := Stitched(curves);
            if FirstUsable(curves) == None then r == []
            else |r| == 1 + TotalSteps(curves) && r[|r| - 1] - r[0] == TotalChange(curves)
  {
    hide Stitched, FirstUsable, AllIncrements, TotalSteps, TotalChange, Increments;
    StitchingKeepsIncrements(curves);
    IncrementsInTotal(curves);
    if FirstUsable(curves) != None {
      Telescopes(Stitched(curves));
    }
  }

  // ---- Buy and hold ----

  /** What one test window reports. */
  datatype Window = Window(equity: seq<real>, buyHold: seq<real>)

  function ResampleIndex(i: nat, n: nat, m: nat): nat {
    if n <= 1 || m == 0 then 0 else i * (m - 1) / (n - 1)
  }

  lemma ResampleInRange(i: nat, n: nat, m: nat)
    requires i < n && m > 0
    ensures ResampleIndex(i, n, m) <= m - 1
    ensures ResampleIndex(0, n, m) == 0
    ensures n > 1 ==> ResampleIndex(n - 1, n, m) == m - 1
  {
    if n > 1 {
      var a, d := m - 1, n - 1;
      assert i * a <= d * a by { assert (d - i) * a >= 0; }
      QuotientAtMost(i * a, a, d);
      QuotientExact(a, d);
    }
  }

  lemma QuotientAtMost(x: nat, a: nat, d: nat)
    requires d > 0 && x <= d * a
    ensures x / d <= a
  {}

  lemma QuotientAtLeast(x: nat, a: nat, d: nat)
    requires d > 0 && x >= d * a
    ensures x / d >= a
  {
    assert x == x / d * d + x % d;
    LeastQuotient(x / d, x % d, a, d);
  }

  lemma LeastQuotient(q: nat, r: nat, a: nat, d: nat)
    requires r < d && q * d + r >= d * a
    ensures q >= a
  {
    assert q + 1 > a by {
      assert (q + 1) * d > a * d;
    }
  }

  lemma QuotientExact(a: nat, d: nat)
    requires d > 0
    ensures d * a / d == a
  {
    QuotientAtMost(d * a, a, d);
    QuotientAtLeast(d * a, a, d);
  }

  /** A capital grown as a price has grown from `base`. */
  function Grown(capital: real, price: real, base: real): real
    requires base > 0.0
  {
    capital * price / base
  }

  /** The `i`-th of `n` points on the straight line between two trade prices, as growth of the capital. */
  function OnLine(capital: real, first: real, last: real, i: nat, n: nat): real
    requires first > 0.0 && n >= 2
  {
    Grown(capital, first + i as real / (n - 1) as real * (last - first), first)
  }

  /** Growth of the capital held passively, resampled to `n` points; empty where no curve can be built. */
  function BuyAndHold(prices: seq<real>, capital: real, n: nat, first: Option<real>, last: Option<real>): seq<real> {
    if |prices| >= 2 then
      if prices[0] > 0.0 && capital > 0.0 then
        seq(n, i requires 0 <= i < n =>
          ResampleInRange(i, n, |prices|);
          Grown(capital, prices[ResampleIndex(i, n, |prices|)], prices[0]))
      else []
    else if first.Some? && last.Some? && first.value > 0.0 && capital > 0.0 && n >= 2 then
      seq(n, i requires 0 <= i < n => OnLine(capital, first.value, last.value, i, n))
    else []
  }

  /** A benchmark curve has the length asked for or none, starts at the capital and ends at the last price. */
  lemma BuyAndHoldEnds(prices: seq<real>, capital: real, n: nat, first: Option<real>, last: Option<real>)
    ensures var r := BuyAndHold(prices, capital, n, first, last);
            && (r == [] || |r| == n)
            && (r != [] ==> r[0] == capital)
            && (n >= 2 ==>
                  (r != [] <==> capital > 0.0 && if |prices| >= 2 then prices[0] > 0.0
                                                 else first.Some? && last.Some? && first.value > 0.0))
            && (n >= 2 && r != [] ==>
                  r[n - 1] == if |prices| >= 2 then Grown(capital, prices[|prices| - 1], prices[0])
                              else Grown(capital, last.value, first.value))
  {
    hide ResampleIndex, OnLine, Grown;
    var r := BuyAndHold(prices, capital, n, first, last);
    if r != [] {
      if |prices| >= 2 {
        ResampleInRange(0, n, |prices|);
        GrownByNothing(capital, prices[0]);
        if n >= 2 {
          ResampleInRange(n - 1, n, |prices|);
        }
      } else {
        LineEnds(capital, first.value, last.value, n);
      }
    }
  }

  lemma LineEnds(capital: real, first: real, last: real, n: nat)
    requires first > 0.0 && n >= 2
    ensures OnLine(capital, first, last, 0, n) == capital
    ensures OnLine(capital, first, last, n - 1, n) == Grown(capital, last, first)
  {
    hide Grown;
    var d := (n - 1) as real;
    assert 0 as real / d == 0.0 && d / d == 1.0;
    SameProduct(0 as real / d, 0.0, last - first, last - first);
    SameProduct(d / d, 1.0, last - first, last - first);
    assert first + 0 as real / d * (last - first) == first;
    assert first + d / d * (last - first) == last;
    GrownByNothing(capital, first);
  }

  lemma GrownByNothing(capital: real, price: real)
    requires price > 0.0
    ensures Grown(capital, price, price) == capital
  {}

  function Equities(windows: seq<Window>): seq<seq<real>> {
    seq(|windows|, i requires 0 <= i < |windows| => windows[i].equity)
  }

  /** The benchmark chain, which skips a window whenever its strategy curve is skipped or its own is missing. */
  function BenchmarkChain(windows: seq<Window>): seq<real> {
    if windows == [] then []
    else
      var w := windows[|windows| - 1];
      var front := BenchmarkChain(windows[..|windows| - 1]);
      if !Usable(w.equity) || !Usable(w.buyHold) then front else Chained(front, w.buyHold)
  }

  /** Emitted only when it lines up with the strategy curve. */
  function Benchmark(windows: seq<Window>): seq<real> {
    var chain := BenchmarkChain(windows);
    if |chain| == |Stitched(Equities(windows))| then chain else []
  }

  method StitchBenchmark(windows: seq<Window>, strategy: seq<real>) returns (merged: seq<real>)
    requires strategy == Stitched(Equities(windows))
    ensures merged == Benchmark(windows)
  {
    merged := [];
    for i := 0 to |windows|
      invariant merged == BenchmarkChain(windows[..i])
    {
      assert windows[..i + 1][..i] == windows[..i];
      if Usable(windows[i].equity) && Usable(windows[i].buyHold) {
        merged := PushWindow(merged, windows[i].buyHold);
      }
    }
    assert windows[..|windows|] == windows;
    if |merged| != |strategy| {
      merged := [];
    }
  }

  /** Every benchmark curve was resampled to its strategy curve, or is missing. */
  ghost predicate Resampled(windows: seq<Window>) {
    forall i :: 0 <= i < |windows| ==> windows[i].buyHold == [] || |windows[i].buyHold| == |windows[i].equity|
  }

  ghost predicate EveryWindowHasBenchmark(windows: seq<Window>) {
    forall i :: 0 <= i < |windows| && Usable(windows[i].equity) ==> Usable(windows[i].buyHold)
  }

  lemma EquitiesFront(windows: seq<Window>)
    requires windows != []
    ensures Equities(windows)[..|windows| - 1] == Equities(windows[..|windows| - 1])
  {}

  lemma {:induction false} ChainLengths(windows: seq<Window>)
    requires Resampled(windows)
    ensures |BenchmarkChain(windows)| <= |Stitched(Equities(windows))|
    ensures |BenchmarkChain(windows)| == |Stitched(Equities(windows))| <==> EveryWindowHasBenchmark(windows)
  {
    if windows != [] {
      var n := |windows| - 1;
      var front, w := windows[..n], windows[n];
      ChainLengths(front);
      EquitiesFront(windows);
      assert Equities(windows)[n] == w.equity;
      assert EveryWindowHasBenchmark(windows) <==>
             EveryWindowHasBenchmark(front) && (Usable(w.equity) ==> Usable(w.buyHold)) by {
        assert windows == front + [w];
      }
      hide Resampled, EveryWindowHasBenchmark, Equities;
      assert w.buyHold == [] || |w.buyHold| == |w.equity| by { LastResampled(windows); }
      ChainedLength(Stitched(Equities(front)), w.equity);
      ChainedLength(BenchmarkChain(front), w.buyHold);
      StitchingKeepsIncrements(Equities(front));
    }
  }

  lemma LastResampled(windows: seq<Window>)
    requires Resampled(windows) && windows != []
    ensures var w := windows[|windows| - 1]; w.buyHold == [] || |w.buyHold| == |w.equity|
  {}

  lemma ChainedLength(merged: seq<real>, curve: seq<real>)
    ensures |Chained(merged, curve)|
         == if |curve| < 2 then |merged| else if merged == [] then |curve| else |merged| + |curve| - 1
  {}

  function Paired(windows: seq<Window>): seq<seq<real>> {
    seq(|windows|, i requires 0 <= i < |windows| => windows[i].buyHold)
  }

  lemma {:induction false} FullChainIsStitched(windows: seq<Window>)
    requires Resampled(windows) && EveryWindowHasBenchmark(windows)
    ensures BenchmarkChain(windows) == Stitched(Paired(windows))
    ensures TotalSteps(Paired(windows)) == TotalSteps(Equities(windows))
  {
    if windows != [] {
      var n := |windows| - 1;
      FullChainIsStitched(windows[..n]);
      EquitiesFront(windows);
      assert Paired(windows)[..n] == Paired(windows[..n]);
      assert Usable(windows[n].equity) ==> Usable(windows[n].buyHold);
      assert windows[n].buyHold == [] || |windows[n].buyHold| == |windows[n].equity|;
    }
  }

  /**
   * The benchmark is all or nothing: it is the stitched benchmark, as long as the strategy curve, when every window
   * that contributes to the strategy has one, and otherwise it is empty.
   */
  lemma BenchmarkIsAllOrNothing(windows: seq<Window>)
    requires Resampled(windows)
    ensures Benchmark(windows) == if EveryWindowHasBenchmark(windows) then Stitched(Paired(windows)) else []
    ensures EveryWindowHasBenchmark(windows) ==> |Benchmark(windows)| == |Stitched(Equities(windows))|
    ensures !EveryWindowHasBenchmark(windows) ==> Stitched(Equities(windows)) != []
  {
    hide Resampled, EveryWindowHasBenchmark, Equities, Paired, Stitched, BenchmarkChain;
    ChainLengths(windows);
    if EveryWindowHasBenchmark(windows) {
      FullChainIsStitched(windows);
    }
  }
}
