/** What the points filled into a gap look like between their neighbours (backtest/src/engine.rs). */
module GapLines {
  import opened Reals
  import opened Gaps

  /** Neighbours between which a price can be interpolated. */
  predicate SameKind(a: MarketData, b: MarketData) {
    (a.Candle? && b.Candle?) || (a.Trade? && b.Trade?)
  }

  /** The first price of a point. */
  function First(d: MarketData): real
    requires d.Candle? || d.Trade?
  {
    if d.Candle? then d.open else d.price
  }

  /** The last price of a point. */
  function Last(d: MarketData): real
    requires d.Candle? || d.Trade?
  {
    if d.Candle? then d.close else d.price
  }

  lemma BlendShare(x: real, y: real, j: real, n: real)
    requires n > 0.0
    ensures Times(n, Blend(x, y, j / n) - x) == Times(j, y - x)
  {
    QuotientTimesDivisor(j, n);
    var ratio := j / n;
    assert n * ((y - x) * ratio) == (ratio * n) * (y - x);
  }

  /**
   * Interpolated fills climb from one neighbour to the other in equal steps: the `j`-th of `n - 1` fills has covered
   * `j` of the `n` steps, in its first price and in its last.
   */
  lemma FillsAreEvenlySpaced(config: Config, a: MarketData, b: MarketData, j: nat)
    requires config.Valid() && config.strategy == LinearInterpolation && SameKind(a, b)
    requires 1 <= j <= FillCount(config, a, b)
    ensures var fill, n := FillPoint(config, a, b, j), (FillCount(config, a, b) + 1) as real;
            && SameKind(a, fill)
            && Times(n, First(fill) - First(a)) == Times(j as real, First(b) - First(a))
            && Times(n, Last(fill) - Last(a)) == Times(j as real, Last(b) - Last(a))
  {
    hide FillCount, Blend, Times;
    BlendShare(First(a), First(b), j as real, (FillCount(config, a, b) + 1) as real);
    BlendShare(Last(a), Last(b), j as real, (FillCount(config, a, b) + 1) as real);
  }

  /** A price moving with time along a line through `a`. */
  predicate OnLine(a: MarketData, slope: real, d: MarketData)
    requires a.Trade? && d.Trade?
  {
    d.price - a.price == Times(slope, (d.ts - a.ts) as real)
  }

  /**
   * Between two trades on a line every fill lies on that line, exactly when the price does not move or the gap is a
   * whole number of periods: fills stand at whole periods after the first trade, but share the price move equally.
   */
  lemma FillsLieOnLineIff(config: Config, a: MarketData, b: MarketData, slope: real, j: nat)
    requires config.Valid() && config.strategy == LinearInterpolation && a.Trade? && b.Trade? && OnLine(a, slope, b)
    requires 1 <= j <= FillCount(config, a, b)
    ensures FillPoint(config, a, b, j).Trade?
    ensures OnLine(a, slope, FillPoint(config, a, b, j)) <==>
            slope == 0.0 || b.ts - a.ts == MILLIS * config.frequency * (FillCount(config, a, b) + 1)
  {
    var fill, n := FillPoint(config, a, b, j), FillCount(config, a, b) + 1;
    FillsAreEvenlySpaced(config, a, b, j);
    var step, gap := MILLIS * config.frequency, b.ts - a.ts;
    assert fill.ts - a.ts == step * j by {
      assert MILLIS * (config.frequency * j) == MILLIS * config.frequency * j;
    }
    hide FillCount, Blend, Times, Interpolated;
    LinePoint(fill.price - a.price, slope, step as real, gap as real, j as real, n as real);
    ProductAsReal(step, j);
    ProductAsReal(step, n);
  }

  lemma ProductAsReal(x: int, y: int)
    ensures (x * y) as real == Times(x as real, y as real)
  {}

  lemma LinePoint(rise: real, slope: real, step: real, gap: real, j: real, n: real)
    requires n > 0.0 && j > 0.0 && Times(n, rise) == Times(j, Times(slope, gap))
    ensures rise == Times(slope, Times(step, j)) <==> slope == 0.0 || gap == Times(step, n)
  {
    assert n * (rise - slope * (step * j)) == (j * slope) * (gap - step * n);
    ZeroProduct(n, rise - slope * (step * j));
    ZeroProduct(j * slope, gap - step * n);
    ZeroProduct(j, slope);
  }

  lemma ZeroProduct(x: real, y: real)
    ensures x * y == 0.0 <==> x == 0.0 || y == 0.0
  {}

  /** Forward filling never looks ahead: the later neighbour decides how many fills there are, not what they say. */
  lemma ForwardFillLooksBack(config: Config, a: MarketData, b: MarketData, b': MarketData)
    requires config.Valid() && config.strategy == ForwardFill && b'.ts == b.ts
    ensures Fills(config, a, b) == Fills(config, a, b')
    ensures forall k :: 0 <= k < |Fills(config, a, b)| ==>
              Fills(config, a, b)[k].(ts := a.ts, volume := a.volume) == a
  {}

  /** Fills are marked as synthetic: no volume, no trades and no value, standing whole seconds after their neighbour. */
  lemma FillsAreMarked(config: Config, a: MarketData, b: MarketData, j: nat)
    requires config.Valid() && 1 <= j <= FillCount(config, a, b)
    ensures var fill := FillPoint(config, a, b, j);
            && fill.volume == 0.0 && fill.ts == a.ts + 1000 * (config.frequency * j)
            && (SameKind(a, b) && config.strategy == LinearInterpolation ==>
                  if fill.Trade? then fill.value == 0.0 && fill.tradeId * 1000 <= fill.ts < fill.tradeId * 1000 + 1000
                  else fill.tradeCount == 0)
  {}

  /** The detection threshold is the product of frequency and multiplier, less its fraction. */
  lemma ThresholdTruncates(config: Config)
    ensures var product := config.frequency as real * config.multiplier;
            if product >= 0.0 then config.Threshold() as real <= product < config.Threshold() as real + 1.0
            else config.Threshold() as real - 1.0 < product <= config.Threshold() as real
  {}

  function Rank(severity: Severity): nat {
    match severity
    case Minor => 0
    case Moderate => 1
    case Severe => 2
    case Critical => 3
  }

  /** A longer gap is never less severe; severity rises past two, five and ten periods. */
  lemma SeverityRises(config: Config, shorter: int, longer: int)
    requires config.Valid() && shorter <= longer
    ensures Rank(SeverityOf(config, shorter)) <= Rank(SeverityOf(config, longer))
    ensures SeverityOf(config, 2 * config.frequency) ==
            Minor && SeverityOf(config, 2 * config.frequency + 1) == Moderate
    ensures SeverityOf(config, 5 * config.frequency) ==
            Moderate && SeverityOf(config, 5 * config.frequency + 1) == Severe
    ensures SeverityOf(config, 10 * config.frequency) ==
            Severe && SeverityOf(config, 10 * config.frequency + 1) == Critical
  {}
}
