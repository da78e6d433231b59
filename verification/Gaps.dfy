/** Detecting and filling gaps in market data (backtest/src/engine.rs). */
module Gaps {
  import opened Reals

  /** Timestamps are milliseconds. Fields that no rule here reads are carried as one opaque `rest`. */
  datatype MarketData =
    | Candle(ts: int, open: real, high: real, low: real, close: real, volume: real, tradeCount: int, rest: string)
    | Trade(ts: int, price: real, volume: real, tradeId: int, value: real, rest: string)
    | PoolSwap(ts: int, volume: real, rest: string)
    | Generic(ts: int, price: real, volume: real, rest: string)
    | OptionCandle(ts: int, open: real, high: real, low: real, close: real, volume: real, rest: string)

  datatype FillStrategy = NoFill | ForwardFill | LinearInterpolation | ExcludeGaps

  datatype Config = Config(enabled: bool, frequency: int, multiplier: real, strategy: FillStrategy)
  {
    /** Frequencies are positive seconds and multipliers positive. */
    predicate Valid() {
      frequency > 0 && multiplier > 0.0
    }

    /** The product, truncated to whole seconds. */
    function Threshold(): int {
      var product := frequency as real * multiplier;
      if product >= 0.0 then product.Floor else -((-product).Floor)
    }
  }

  datatype Severity = Minor | Moderate | Severe | Critical

  datatype DataGap = DataGap(start: int, end: int, seconds: int, severity: Severity)

  const MILLIS: int := 1000

  /** Whole seconds of a duration in milliseconds, truncated toward zero. */
  function Seconds(millis: int): int {
    if millis >= 0 then millis / MILLIS else -(-millis / MILLIS)
  }

  /** Integer division truncated toward zero. */
  function Quotient(x: int, y: int): int
    requires y > 0
  {
    if x >= 0 then x / y else -(-x / y)
  }

  function GapSeconds(a: MarketData, b: MarketData): int {
    Seconds(b.ts - a.ts)
  }

  // ---- Detection ----

  function SeverityOf(config: Config, seconds: int): Severity {
    if seconds > config.frequency * 10 then Critical
    else if seconds > config.frequency * 5 then Severe
    else if seconds > config.frequency * 2 then Moderate
    else Minor
  }

  function GapBetween(config: Config, a: MarketData, b: MarketData): seq<DataGap> {
    var seconds := GapSeconds(a, b);
    if seconds > config.Threshold() then [DataGap(a.ts, b.ts, seconds, SeverityOf(config, seconds))] else []
  }

  /** One report per adjacent pair further apart than the threshold, in order. */
  function Reports(config: Config, data: seq<MarketData>): seq<DataGap> {
    if |data| < 2 then []
    else Reports(config, data[..|data| - 1]) + GapBetween(config, data[|data| - 2], data[|data| - 1])
  }

  function Detected(config: Config, data: seq<MarketData>): seq<DataGap> {
    if config.enabled then Reports(config, data) else []
  }

  method DetectDataGaps(config: Config, data: seq<MarketData>) returns (gaps: seq<DataGap>)
    ensures gaps == Detected(config, data)
  {
    gaps := [];
    if !config.enabled || |data| < 2 {
      return;
    }
    var threshold := config.Threshold();
    for i := 1 to |data|
      invariant gaps == Reports(config, data[..i])
    {
      assert data[..i + 1][..i] == data[..i];
      var seconds := GapSeconds(data[i - 1], data[i]);
      if seconds > threshold {
        gaps := gaps + [DataGap(data[i - 1].ts, data[i].ts, seconds, SeverityOf(config, seconds))];
      }
    }
    assert data[..|data|] == data;
  }

  ghost predicate NoWideGap(config: Config, data: seq<MarketData>) {
    forall i :: 0 <= i < |data| - 1 ==> GapSeconds(data[i], data[i + 1]) <= config.Threshold()
  }

  lemma NoWideGapStep(config: Config, data: seq<MarketData>)
    requires |data| >= 2
    ensures var n := |data| - 1;
            NoWideGap(config, data) <==>
            NoWideGap(config, data[..n]) && GapSeconds(data[n - 1], data[n]) <= config.Threshold()
  {
    hide GapSeconds;
    var n := |data| - 1;
    var front := data[..n];
    if NoWideGap(config, data) {
      forall i | 0 <= i < n - 1 ensures GapSeconds(front[i], front[i + 1]) <= config.Threshold() {
        assert front[i] == data[i] && front[i + 1] == data[i + 1];
      }
      var i := n - 1;
      assert GapSeconds(data[i], data[i + 1]) <= config.Threshold();
    }
    if NoWideGap(config, front) && GapSeconds(data[n - 1], data[n]) <= config.Threshold() {
      forall i | 0 <= i < n ensures GapSeconds(data[i], data[i + 1]) <= config.Threshold() {
        if i < n - 1 {
          assert front[i] == data[i] && front[i + 1] == data[i + 1];
        }
      }
    }
  }

  /** Nothing is reported exactly when no adjacent pair is further apart than the threshold. */
  lemma {:induction false} ReportsNothingIff(config: Config, data: seq<MarketData>)
    ensures Reports(config, data) == [] <==> NoWideGap(config, data)
  {
    if |data| >= 2 {
      hide GapSeconds, NoWideGap;
      ReportsNothingIff(config, data[..|data| - 1]);
      NoWideGapStep(config, data);
    }
  }

  // ---- Filling ----

  function Blank(source: MarketData, ts: int): MarketData {
    source.(ts := ts, volume := 0.0)
  }

  function Blend(x: real, y: real, ratio: real): real {
    x + (y - x) * ratio
  }

  function Interpolated(a: MarketData, b: MarketData, ts: int, ratio: real): MarketData {
    match (a, b)
    case (Candle(_, _, _, _, _, _, _, _), Candle(_, _, _, _, _, _, _, _)) =>
      Candle(ts, Blend(a.open, b.open, ratio), if a.high > b.high then a.high else b.high,
             if a.low < b.low then a.low else b.low, Blend(a.close, b.close, ratio), 0.0, 0, a.rest)
    case (Trade(_, _, _, _, _, _), Trade(_, _, _, _, _, _)) =>
      Trade(ts, Blend(a.price, b.price, ratio), 0.0, ts / MILLIS, 0.0, a.rest)
    case _ => Blank(a, ts)
  }

  /** How many points are inserted between two neighbours. */
  function FillCount(config: Config, a: MarketData, b: MarketData): (n: nat)
    requires config.Valid()
  {
    var seconds := GapSeconds(a, b);
    var fills := Quotient(seconds, config.frequency) - 1;
    if seconds > config.Threshold() && fills > 0 then fills else 0
  }

  function FillTime(config: Config, a: MarketData, j: int): int {
    a.ts + MILLIS * (config.frequency * j)
  }

  /** The `j`-th inserted point, counted from one. */
  function FillPoint(config: Config, a: MarketData, b: MarketData, j: nat): MarketData
    requires config.Valid()
  {
    var ts := FillTime(config, a, j);
    if config.strategy.LinearInterpolation?
    then Interpolated(a, b, ts, j as real / (FillCount(config, a, b) + 1) as real)
    else Blank(a, ts)
  }

  function Fills(config: Config, a: MarketData, b: MarketData): (points: seq<MarketData>)
    requires config.Valid()
    ensures |points| == FillCount(config, a, b)
  {
    seq(FillCount(config, a, b), k requires 0 <= k => FillPoint(config, a, b, k + 1))
  }

  function Filled(config: Config, data: seq<MarketData>): (r: seq<MarketData>)
    requires config.Valid()
    ensures data != [] ==> r != [] && r[0] == data[0]
  {
    if |data| < 2 then data
    else [data[0]] + Fills(config, data[0], data[1]) + Filled(config, data[1..])
  }

  predicate InsideGap(gaps: seq<DataGap>, ts: int) {
    exists k :: 0 <= k < |gaps| && gaps[k].start < ts < gaps[k].end
  }

  function Outside(gaps: seq<DataGap>, data: seq<MarketData>): seq<MarketData> {
    if data == [] then []
    else
      var last := data[|data| - 1];
      Outside(gaps, data[..|data| - 1]) + if InsideGap(gaps, last.ts) then [] else [last]
  }

  function GapFilled(config: Config, data: seq<MarketData>): seq<MarketData>
    requires config.Valid()
  {
    match config.strategy
    case NoFill => data
    case ExcludeGaps => Outside(Detected(config, data), data)
    case _ => Filled(config, data)
  }

  /** The filling loops, one point pushed at a time. */
  method ApplyGapFilling(config: Config, data: seq<MarketData>) returns (r: seq<MarketData>)
    requires config.Valid()
    ensures r == GapFilled(config, data)
  {
    match config.strategy
    case NoFill => r := data;
    case ExcludeGaps => r := ExcludeInsideGaps(config, data);
    case _ => r := FillForward(config, data);
  }

  method FillForward(config: Config, data: seq<MarketData>) returns (r: seq<MarketData>)
    requires config.Valid()
    ensures r == Filled(config, data)
  {
    hide FillCount, FillPoint, Fills;
    r := [];
    for i := 0 to |data|
      invariant r + Filled(config, data[i..]) == Filled(config, data)
    {
      FilledFrom(config, data, i, r);
      r := r + [data[i]];
      if i < |data| - 1 {
        r := PushFills(config, r, data[i], data[i + 1]);
      }
    }
    assert data[|data|..] == [];
  }

  /** The series from point `i` on is that point, its fills, and the series from the next point on. */
  lemma FilledFrom(config: Config, data: seq<MarketData>, i: nat, before: seq<MarketData>)
    requires config.Valid() && i < |data|
    ensures before + Filled(config, data[i..])
         == before + [data[i]] + (if i < |data| - 1 then Fills(config, data[i], data[i + 1]) else [])
            + Filled(config, data[i + 1..])
  {
    hide FillCount, FillPoint, Fills;
    var rest := data[i..];
    assert rest[0] == data[i] && rest[1..] == data[i + 1..];
    if i < |data| - 1 {
      assert rest[1] == data[i + 1];
    }
  }

  method PushFills(config: Config, before: seq<MarketData>, a: MarketData, b: MarketData) returns (r: seq<MarketData>)
    requires config.Valid()
    ensures r == before + Fills(config, a, b)
  {
    hide FillCount, FillPoint;
    r := before;
    for j := 1 to FillCount(config, a, b) + 1
      invariant r == before + Fills(config, a, b)[..j - 1]
    {
      r := r + [FillPoint(config, a, b, j)];
    }
  }

  method ExcludeInsideGaps(config: Config, data: seq<MarketData>) returns (r: seq<MarketData>)
    ensures r == Outside(Detected(config, data), data)
  {
    var gaps := DetectDataGaps(config, data);
    r := [];
    for i := 0 to |data|
      invariant r == Outside(gaps, data[..i])
    {
      assert data[..i + 1][..i] == data[..i];
      if !InsideGap(gaps, data[i].ts) {
        r := r + [data[i]];
      }
    }
    assert data[..|data|] == data;
  }

  // ---- Originals stay, in order, with only inserted points between them ----

  /** Where the `i`-th original point lands. */
  function Landing(config: Config, data: seq<MarketData>, i: nat): nat
    requires config.Valid() && i < |data|
  {
    if i == 0 then 0 else Landing(config, data, i - 1) + 1 + FillCount(config, data[i - 1], data[i])
  }

  lemma {:induction false} LandingInTail(config: Config, data: seq<MarketData>, i: nat)
    requires config.Valid() && 0 < i < |data|
    ensures Landing(config, data, i) == 1 + FillCount(config, data[0], data[1]) + Landing(config, data[1..], i - 1)
  {
    hide FillCount;
    if i > 1 {
      LandingInTail(config, data, i - 1);
    } else {
      assert Landing(config, data, 0) == 0 && Landing(config, data[1..], 0) == 0;
    }
  }

  /**
   * The filled series point by point: every original sits at its landing, the points after it up to the next landing
   * are exactly the fills of that gap, and the last original is the last point.
   */
  lemma {:induction false} FilledPointwise(config: Config, data: seq<MarketData>, i: nat)
    requires config.Valid() && i < |data|
    ensures var r, at := Filled(config, data), Landing(config, data, i);
            && at < |r| && r[at] == data[i]
            && (i == |data| - 1 ==> at == |r| - 1)
            && (i < |data| - 1 ==>
                  && Landing(config, data, i + 1) < |r|
                  && r[at + 1..Landing(config, data, i + 1)] == Fills(config, data[i], data[i + 1]))
  {
    hide Fills, FillCount;
    if |data| >= 2 {
      var head := [data[0]] + Fills(config, data[0], data[1]);
      var tail := Filled(config, data[1..]);
      assert Filled(config, data) == head + tail;
      if i == 0 {
        FilledPointwise(config, data[1..], 0);
        LandingInTail(config, data, 1);
        assert Landing(config, data[1..], 0) == 0;
        StretchOfHead(head, tail);
      } else {
        FilledPointwise(config, data[1..], i - 1);
        LandingInTail(config, data, i);
        var at := Landing(config, data[1..], i - 1);
        if i < |data| - 1 {
          LandingInTail(config, data, i + 1);
          StretchOfTail(head, tail, at, Landing(config, data[1..], i));
        }
      }
    }
  }

  lemma StretchOfHead(head: seq<MarketData>, tail: seq<MarketData>)
    requires head != []
    ensures (head + tail)[1..|head|] == head[1..]
  {}

  lemma StretchOfTail(head: seq<MarketData>, tail: seq<MarketData>, at: nat, next: nat)
    requires at < next <= |tail|
    ensures (head + tail)[|head| + at + 1..|head| + next] == tail[at + 1..next]
  {}

  // ---- Time order ----

  ghost predicate Sorted(data: seq<MarketData>) {
    forall i :: 0 <= i < |data| - 1 ==> data[i].ts <= data[i + 1].ts
  }

  lemma SecondsBounds(millis: int)
    requires millis >= 0
    ensures 0 <= Seconds(millis) * MILLIS <= millis < (Seconds(millis) + 1) * MILLIS
  {}

  lemma QuotientBounds(x: int, y: int)
    requires x >= 0 && y > 0
    ensures 0 <= Quotient(x, y) && Quotient(x, y) * y <= x < Quotient(x, y) * y + y
  {
    assert x == x / y * y + x % y;
  }

  /** Seconds between points a whole number of seconds apart. */
  lemma WholeSeconds(seconds: int)
    ensures Seconds(MILLIS * seconds) == seconds
  {}

  lemma FillTimes(config: Config, a: MarketData, b: MarketData, j: nat)
    requires config.Valid() && a.ts <= b.ts && 1 <= j <= FillCount(config, a, b)
    ensures FillPoint(config, a, b, j).ts == FillTime(config, a, j)
    ensures a.ts < FillTime(config, a, j) < b.ts
    ensures GapSeconds(a, b) > config.Threshold()
    ensures FillCount(config, a, b) == Quotient(GapSeconds(a, b), config.frequency) - 1
    ensures 0 <= config.frequency * j <= GapSeconds(a, b) - config.frequency
  {
    var seconds := GapSeconds(a, b);
    SecondsBounds(b.ts - a.ts);
    QuotientBounds(seconds, config.frequency);
    var n := FillCount(config, a, b);
    assert (n + 1) * config.frequency <= seconds;
    ProductOrder(config.frequency, j, n);
    hide Seconds, Quotient, Interpolated;
  }

  lemma ProductOrder(f: int, j: int, n: int)
    requires f > 0 && 1 <= j <= n
    ensures f <= f * j <= f * n == n * f
    ensures (n + 1) * f == n * f + f
  {}

  /** What holds of neighbours after filling: in order, nothing more to insert, and within a wide enough threshold. */
  ghost predicate Settled(config: Config, x: MarketData, y: MarketData)
    requires config.Valid()
  {
    && x.ts <= y.ts
    && FillCount(config, x, y) == 0
    && (config.Threshold() >= 2 * config.frequency - 1 ==> GapSeconds(x, y) <= config.Threshold())
  }

  lemma ShortGapNeedsNoFill(config: Config, x: MarketData, y: MarketData)
    requires config.Valid() && x.ts <= y.ts && GapSeconds(x, y) <= 2 * config.frequency - 1
    ensures Settled(config, x, y)
  {
    SecondsBounds(y.ts - x.ts);
    QuotientBounds(GapSeconds(x, y), config.frequency);
    var q := Quotient(GapSeconds(x, y), config.frequency);
    if q >= 2 {
      ProductOrder(config.frequency, 2, q);
    }
  }

  /** A gap too short to fill is settled as it stands: what is reported but not filled is under two periods. */
  lemma UnfilledGapIsSettled(config: Config, a: MarketData, b: MarketData)
    requires config.Valid() && a.ts <= b.ts && FillCount(config, a, b) == 0
    ensures Settled(config, a, b)
  {}

  /** The points of one gap from its start to its end. */
  function Segment(config: Config, a: MarketData, b: MarketData): (s: seq<MarketData>)
    requires config.Valid()
    ensures |s| == FillCount(config, a, b) + 2
  {
    [a] + Fills(config, a, b) + [b]
  }

  lemma SegmentTimes(config: Config, a: MarketData, b: MarketData, k: nat)
    requires config.Valid() && a.ts <= b.ts && k <= FillCount(config, a, b)
    ensures var s := Segment(config, a, b); s[k].ts == FillTime(config, a, k)
  {}

  /** Neighbours within a filled gap are one period apart, except the last, under two. */
  lemma SegmentIsSettled(config: Config, a: MarketData, b: MarketData, k: nat)
    requires config.Valid() && a.ts <= b.ts && k <= FillCount(config, a, b)
    ensures var s := Segment(config, a, b); Settled(config, s[k], s[k + 1])
  {
    var n := FillCount(config, a, b);
    if n == 0 {
      UnfilledGapIsSettled(config, a, b);
    } else {
      var s := Segment(config, a, b);
      SegmentTimes(config, a, b, k);
      if k < n {
        SegmentTimes(config, a, b, k + 1);
        OnePeriod(config.frequency, a.ts, k);
        WholeSeconds(config.frequency);
        assert s[k + 1].ts - s[k].ts == MILLIS * config.frequency;
        assert GapSeconds(s[k], s[k + 1]) == config.frequency;
      } else {
        LastStretch(config, a, b, s[n]);
      }
      ShortGapNeedsNoFill(config, s[k], s[k + 1]);
    }
  }

  lemma OnePeriod(f: int, start: int, k: int)
    ensures start + MILLIS * (f * (k + 1)) - (start + MILLIS * (f * k)) == MILLIS * f
  {}

  lemma LastStretch(config: Config, a: MarketData, b: MarketData, last: MarketData)
    requires config.Valid() && a.ts <= b.ts && FillCount(config, a, b) > 0
    requires last.ts == FillTime(config, a, FillCount(config, a, b))
    ensures last.ts <= b.ts && GapSeconds(last, b) <= 2 * config.frequency - 1
  {}

  ghost predicate AllSettled(config: Config, r: seq<MarketData>)
    requires config.Valid()
  {
    forall k, k' :: 0 <= k < k' < |r| && k' == k + 1 ==> Settled(config, r[k], r[k'])
  }

  lemma SettledJoin(config: Config, s: seq<MarketData>, tail: seq<MarketData>)
    requires config.Valid() && AllSettled(config, s) && AllSettled(config, tail)
    requires s != [] && tail != [] && s[|s| - 1] == tail[0]
    ensures AllSettled(config, s[..|s| - 1] + tail)
  {}

  lemma SortedTail(data: seq<MarketData>)
    requires Sorted(data) && data != []
    ensures Sorted(data[1..])
  {}

  /** After filling sorted data, every pair of neighbours is settled. */
  lemma {:induction false} FilledIsSettled(config: Config, data: seq<MarketData>)
    requires config.Valid() && Sorted(data)
    ensures AllSettled(config, Filled(config, data))
  {
    hide Settled, FillCount, FillPoint, Fills;
    if |data| >= 2 {
      var rest := data[1..];
      SortedTail(data);
      FilledIsSettled(config, rest);
      var s, tail := Segment(config, data[0], data[1]), Filled(config, rest);
      assert data[0].ts <= data[0 + 1].ts;
      forall k, k' | 0 <= k < k' < |s| && k' == k + 1 ensures Settled(config, s[k], s[k']) {
        SegmentIsSettled(config, data[0], data[1], k);
      }
      assert AllSettled(config, s);
      SettledJoin(config, s, tail);
      assert s[..|s| - 1] == [data[0]] + Fills(config, data[0], data[1]);
    }
  }

  lemma {:induction false} NothingToFill(config: Config, data: seq<MarketData>)
    requires config.Valid() && forall i :: 0 <= i < |data| - 1 ==> FillCount(config, data[i], data[i + 1]) == 0
    ensures Filled(config, data) == data
  {
    hide FillCount;
    if |data| >= 2 {
      var rest := data[1..];
      forall i | 0 <= i < |rest| - 1 ensures FillCount(config, rest[i], rest[i + 1]) == 0 {
        assert FillCount(config, data[i + 1], data[i + 1 + 1]) == 0;
      }
      NothingToFill(config, rest);
      assert FillCount(config, data[0], data[0 + 1]) == 0;
      assert Fills(config, data[0], data[1]) == [];
    }
  }

  /** Filling keeps time order and a second filling changes nothing, whatever the threshold. */
  lemma FillingIsIdempotent(config: Config, data: seq<MarketData>)
    requires config.Valid() && Sorted(data)
    ensures Sorted(Filled(config, data))
    ensures Filled(config, Filled(config, data)) == Filled(config, data)
  {
    hide FillCount, FillPoint;
    FilledIsSettled(config, data);
    var r := Filled(config, data);
    forall i | 0 <= i < |r| - 1 ensures FillCount(config, r[i], r[i + 1]) == 0 {
      var j := i + 1;
      assert Settled(config, r[i], r[j]);
    }
    assert Sorted(r) by {
      forall i | 0 <= i < |r| - 1 ensures r[i].ts <= r[i + 1].ts {
        var j := i + 1;
        assert Settled(config, r[i], r[j]);
      }
    }
    NothingToFill(config, r);
  }

  /** No sorted series keeps a gap that detection would report. */
  ghost predicate ClosesEveryGap(config: Config)
    requires config.Valid()
  {
    forall data :: Sorted(data) ==> Detected(config, Filled(config, data)) == []
  }

  /** The shortest gap of whole seconds that filling leaves alone. */
  function Unfilled(config: Config): seq<MarketData> {
    [PoolSwap(0, 1.0, ""), PoolSwap(MILLIS * (2 * config.frequency - 1), 1.0, "")]
  }

  /**
   * Filling leaves no reported gap in any sorted data exactly when detection is off or the threshold is at least one
   * second short of two periods; otherwise a gap of that length is reported and never filled.
   */
  lemma ClosesEveryGapIff(config: Config)
    requires config.Valid()
    ensures ClosesEveryGap(config) <==> !config.enabled || config.Threshold() >= 2 * config.frequency - 1
  {
    if config.enabled && config.Threshold() < 2 * config.frequency - 1 {
      var data := Unfilled(config);
      UnfilledStays(config);
      assert Sorted(data);
    } else if config.enabled {
      forall data | Sorted(data) ensures Detected(config, Filled(config, data)) == [] {
        NoGapIsLeft(config, data);
      }
    }
  }

  lemma NoGapIsLeft(config: Config, data: seq<MarketData>)
    requires config.Valid() && Sorted(data) && config.Threshold() >= 2 * config.frequency - 1
    ensures Detected(config, Filled(config, data)) == []
  {
    hide FillCount, FillPoint, Seconds;
    FilledIsSettled(config, data);
    var r := Filled(config, data);
    assert NoWideGap(config, r) by {
      forall i | 0 <= i < |r| - 1 ensures GapSeconds(r[i], r[i + 1]) <= config.Threshold() {
        var j := i + 1;
        assert Settled(config, r[i], r[j]);
      }
    }
    ReportsNothingIff(config, r);
  }

  lemma UnfilledStays(config: Config)
    requires config.Valid() && config.enabled && config.Threshold() < 2 * config.frequency - 1
    ensures Filled(config, Unfilled(config)) == Unfilled(config)
    ensures Detected(config, Unfilled(config)) != []
  {
    var data := Unfilled(config);
    WholeSeconds(2 * config.frequency - 1);
    assert GapSeconds(data[0], data[1]) == 2 * config.frequency - 1;
    ShortGapNeedsNoFill(config, data[0], data[1]);
    NothingToFill(config, data);
    assert !NoWideGap(config, data) by {
      assert GapSeconds(data[0], data[0 + 1]) > config.Threshold();
    }
    ReportsNothingIff(config, data);
  }

  // ---- Volume ----

  function Volume(data: seq<MarketData>): real {
    if data == [] then 0.0 else data[0].volume + Volume(data[1..])
  }

  lemma {:induction false} VolumeConcat(xs: seq<MarketData>, ys: seq<MarketData>)
    ensures Volume(xs + ys) == Volume(xs) + Volume(ys)
  {
    if xs == [] {
      assert xs + ys == ys;
    } else {
      assert (xs + ys)[1..] == xs[1..] + ys;
      VolumeConcat(xs[1..], ys);
    }
  }

  lemma {:induction false} BlankVolume(points: seq<MarketData>)
    requires forall i :: 0 <= i < |points| ==> points[i].volume == 0.0
    ensures Volume(points) == 0.0
  {
    if points != [] {
      BlankVolume(points[1..]);
    }
  }

  /** Inserted points carry no volume, so filling conserves the total. */
  lemma {:induction false} VolumeIsConserved(config: Config, data: seq<MarketData>)
    requires config.Valid()
    ensures Volume(Filled(config, data)) == Volume(data)
  {
    hide FillCount;
    if |data| >= 2 {
      var fills := Fills(config, data[0], data[1]);
      BlankVolume(fills);
      VolumeIsConserved(config, data[1..]);
      hide FillPoint, Fills;
      VolumeConcat([data[0]] + fills, Filled(config, data[1..]));
      VolumeConcat([data[0]], fills);
      assert Volume([data[0]]) == data[0].volume;
    }
  }

  // ---- Candles stay well formed ----

  /** Open and close lie between low and high. */
  predicate WellFormed(d: MarketData) {
    d.Candle? ==> d.low <= d.open <= d.high && d.low <= d.close <= d.high
  }

  lemma BlendBetween(x: real, y: real, ratio: real)
    requires 0.0 <= ratio <= 1.0
    ensures Min(x, y) <= Blend(x, y, ratio) <= Max(x, y)
  {
    ProductOfNonNegatives(ratio, Abs(y - x));
    ProductOfNonNegatives(1.0 - ratio, Abs(y - x));
    if x <= y {
      assert (y - x) * ratio == ratio * (y - x) && (1.0 - ratio) * (y - x) == (y - x) - ratio * (y - x);
    } else {
      assert (y - x) * ratio == -(ratio * (x - y)) && (1.0 - ratio) * (x - y) == (x - y) - ratio * (x - y);
    }
  }

  lemma InterpolatedIsWellFormed(a: MarketData, b: MarketData, ts: int, ratio: real)
    requires WellFormed(a) && WellFormed(b) && 0.0 <= ratio <= 1.0
    ensures WellFormed(Interpolated(a, b, ts, ratio))
  {
    hide Blend;
    if a.Candle? && b.Candle? {
      BlendBetween(a.open, b.open, ratio);
      BlendBetween(a.close, b.close, ratio);
    }
  }

  /** Filling inserts only candles whose open and close lie between their low and high. */
  lemma {:induction false} FilledIsWellFormed(config: Config, data: seq<MarketData>)
    requires config.Valid() && forall i :: 0 <= i < |data| ==> WellFormed(data[i])
    ensures forall i :: 0 <= i < |Filled(config, data)| ==> WellFormed(Filled(config, data)[i])
  {
    hide Interpolated, FillCount, WellFormed;
    if |data| >= 2 {
      var fills := Fills(config, data[0], data[1]);
      forall k: nat | k < |fills| ensures WellFormed(fills[k]) {
        FillPointIsWellFormed(config, data[0], data[1], k + 1);
      }
      FilledIsWellFormed(config, data[1..]);
    }
  }

  lemma FillPointIsWellFormed(config: Config, a: MarketData, b: MarketData, j: nat)
    requires config.Valid() && WellFormed(a) && WellFormed(b) && 1 <= j <= FillCount(config, a, b)
    ensures WellFormed(FillPoint(config, a, b, j))
  {
    hide FillCount, Interpolated;
    if config.strategy.LinearInterpolation? {
      QuotientInUnit(j as real, (FillCount(config, a, b) + 1) as real);
      InterpolatedIsWellFormed(a, b, FillTime(config, a, j), j as real / (FillCount(config, a, b) + 1) as real);
    }
  }

  // ---- Excluding gaps ----

  ghost predicate BetweenNeighbours(data: seq<MarketData>, gaps: seq<DataGap>) {
    forall k :: 0 <= k < |gaps| ==>
      exists i :: 0 <= i < |data| - 1 && gaps[k].start == data[i].ts && gaps[k].end == data[i + 1].ts
  }

  lemma {:induction false} ReportsAreNeighbours(config: Config, data: seq<MarketData>)
    ensures BetweenNeighbours(data, Reports(config, data))
  {
    if |data| >= 2 {
      var n := |data| - 1;
      var front, gaps := data[..n], Reports(config, data);
      ReportsAreNeighbours(config, front);
      forall k | 0 <= k < |gaps|
        ensures exists i :: 0 <= i < |data| - 1 && gaps[k].start == data[i].ts && gaps[k].end == data[i + 1].ts
      {
        if k < |Reports(config, front)| {
          var i :| 0 <= i < |front| - 1 && gaps[k].start == front[i].ts && gaps[k].end == front[i + 1].ts;
          assert front[i] == data[i] && front[i + 1] == data[i + 1];
        } else {
          assert gaps[k].start == data[n - 1].ts && gaps[k].end == data[n - 1 + 1].ts;
        }
      }
    }
  }

  lemma {:induction false} SortedPair(data: seq<MarketData>, i: nat, j: nat)
    requires Sorted(data) && i <= j < |data|
    ensures data[i].ts <= data[j].ts
  {
    if i < j {
      SortedPair(data, i, j - 1);
      assert data[j - 1].ts <= data[j - 1 + 1].ts;
    }
  }

  lemma NoPointInsideGap(data: seq<MarketData>, gaps: seq<DataGap>, p: nat)
    requires Sorted(data) && BetweenNeighbours(data, gaps) && p < |data|
    ensures !InsideGap(gaps, data[p].ts)
  {
    hide Sorted;
    if InsideGap(gaps, data[p].ts) {
      var k :| 0 <= k < |gaps| && gaps[k].start < data[p].ts < gaps[k].end;
      var i :| 0 <= i < |data| - 1 && gaps[k].start == data[i].ts && gaps[k].end == data[i + 1].ts;
      if p <= i {
        SortedPair(data, p, i);
      } else {
        SortedPair(data, i + 1, p);
      }
    }
  }

  lemma {:induction false} NothingInside(gaps: seq<DataGap>, data: seq<MarketData>)
    requires forall p :: 0 <= p < |data| ==> !InsideGap(gaps, data[p].ts)
    ensures Outside(gaps, data) == data
  {
    hide InsideGap;
    if data != [] {
      NothingInside(gaps, data[..|data| - 1]);
    }
  }

  /** On sorted data the exclusion strategy removes nothing: a gap lies between neighbours, which it keeps. */
  lemma ExclusionKeepsSortedData(config: Config, data: seq<MarketData>)
    requires Sorted(data)
    ensures Outside(Detected(config, data), data) == data
  {
    hide InsideGap, Sorted;
    ReportsAreNeighbours(config, data);
    forall p: nat | p < |data| ensures !InsideGap(Detected(config, data), data[p].ts) {
      if config.enabled {
        NoPointInsideGap(data, Detected(config, data), p);
      } else {
        NoGapNoInside(data[p].ts);
      }
    }
    NothingInside(Detected(config, data), data);
  }

  lemma NoGapNoInside(ts: int)
    ensures !InsideGap([], ts)
  {}
}
