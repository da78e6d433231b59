/** Order book implied by one candle, and walking it with a market order (backtest/src/synthetic_book.rs). */
module SyntheticBook {
  import opened Reals

  datatype Config = Config(
    spreadBps: real, depthLevels: nat, decay: real, volatilityMultiplier: real, maxWideningBps: real)

  datatype Candle = Candle(close: real, high: real, low: real, volume: real)

  datatype DepthLevel = DepthLevel(price: real, volume: real)

  datatype Book = Book(mid: real, bestBid: real, bestAsk: real, bids: seq<DepthLevel>, asks: seq<DepthLevel>)

  datatype BookSide = Bid | Ask

  const UNIT_DECAY_TOLERANCE := 0.000000000001

  // ---- Building ----

  function BaseHalfSpread(c: Candle, config: Config): real {
    c.close * config.spreadBps / 20000.0
  }

  function RangeRatio(c: Candle): real {
    if c.close > 0.0 then (c.high - c.low) / c.close else 0.0
  }

  function WideningCap(c: Candle, config: Config): real {
    c.close * config.maxWideningBps / 10000.0
  }

  function Widening(c: Candle, config: Config): real {
    Min(c.close * RangeRatio(c) * config.volatilityMultiplier / 2.0, WideningCap(c, config))
  }

  function HalfSpread(c: Candle, config: Config): real {
    BaseHalfSpread(c, config) + Widening(c, config)
  }

  function Tick(c: Candle, config: Config): real {
    Max(HalfSpread(c, config), c.close * 0.0001)
  }

  function Pow(x: real, n: nat): real {
    if n == 0 then 1.0 else Times(Pow(x, n - 1), x)
  }

  /** The normaliser the program divides by. */
  function GeoSum(decay: real, n: nat): real {
    if Abs(decay - 1.0) < UNIT_DECAY_TOLERANCE then n as real else (1.0 - Pow(decay, n)) / (1.0 - decay)
  }

  function BaseLevelVolume(volume: real, decay: real, n: nat): real {
    var geoSum := GeoSum(decay, n);
    if geoSum > 0.0 then volume / 2.0 / geoSum else volume / 2.0
  }

  function LevelVolume(c: Candle, config: Config, i: nat): real {
    Times(BaseLevelVolume(c.volume, config.decay, config.depthLevels), Pow(config.decay, i))
  }

  function BidLevel(c: Candle, config: Config, i: nat): DepthLevel {
    DepthLevel(c.close - HalfSpread(c, config) - Times(Tick(c, config), i as real), LevelVolume(c, config, i))
  }

  function AskLevel(c: Candle, config: Config, i: nat): DepthLevel {
    DepthLevel(c.close + HalfSpread(c, config) + Times(Tick(c, config), i as real), LevelVolume(c, config, i))
  }

  function FromCandleSpec(c: Candle, config: Config): Book {
    var half := HalfSpread(c, config);
    Book(c.close, c.close - half, c.close + half,
         seq(config.depthLevels, i requires 0 <= i < config.depthLevels => BidLevel(c, config, i)),
         seq(config.depthLevels, i requires 0 <= i < config.depthLevels => AskLevel(c, config, i)))
  }

  /** Builds both sides level by level. */
  method FromCandle(c: Candle, config: Config) returns (book: Book)
    ensures book == FromCandleSpec(c, config)
  {
    hide BaseHalfSpread, Widening, GeoSum, Pow, Times, Tick, BaseLevelVolume;
    var halfSpread := BaseHalfSpread(c, config) + Widening(c, config);
    var bestBid, bestAsk := c.close - halfSpread, c.close + halfSpread;
    var base := BaseLevelVolume(c.volume, config.decay, config.depthLevels);
    var tick := Tick(c, config);
    var bids, asks := [], [];
    for i := 0 to config.depthLevels
      invariant |bids| == |asks| == i
      invariant forall k :: 0 <= k < i ==> bids[k] == BidLevel(c, config, k) && asks[k] == AskLevel(c, config, k)
    {
      var volume := Times(base, Pow(config.decay, i));
      bids := bids + [DepthLevel(bestBid - Times(tick, i as real), volume)];
      asks := asks + [DepthLevel(bestAsk + Times(tick, i as real), volume)];
    }
    book := Book(c.close, bestBid, bestAsk, bids, asks);
  }

  // ---- Depth ----

  function PowerSum(decay: real, n: nat): real {
    if n == 0 then 0.0 else PowerSum(decay, n - 1) + Pow(decay, n - 1)
  }

  function Depth(levels: seq<DepthLevel>): real {
    if levels == [] then 0.0 else Depth(levels[..|levels| - 1]) + levels[|levels| - 1].volume
  }

  lemma {:induction false} GeometricSeries(decay: real, n: nat)
    ensures (1.0 - decay) * PowerSum(decay, n) == 1.0 - Pow(decay, n)
  {
    if n > 0 {
      GeometricSeries(decay, n - 1);
      GeometricStep(decay, PowerSum(decay, n - 1), Pow(decay, n - 1));
    }
  }

  lemma GeometricStep(decay: real, sum: real, power: real)
    requires (1.0 - decay) * sum == 1.0 - power
    ensures (1.0 - decay) * (sum + power) == 1.0 - power * decay
  {}

  lemma {:induction false} PowersArePositive(decay: real, n: nat)
    requires decay >= 0.0
    ensures Pow(decay, n) >= 0.0
    ensures n > 0 ==> PowerSum(decay, n) >= 1.0
  {
    if n > 0 {
      PowersArePositive(decay, n - 1);
      ProductOfNonNegatives(Pow(decay, n - 1), decay);
      if n == 1 {
        assert PowerSum(decay, 0) == 0.0 && Pow(decay, 0) == 1.0;
      }
    }
  }

  lemma {:induction false} DepthIsPowerSum(c: Candle, config: Config, levels: seq<DepthLevel>)
    requires forall i :: 0 <= i < |levels| ==> levels[i].volume == LevelVolume(c, config, i)
    ensures Depth(levels) ==
            Times(BaseLevelVolume(c.volume, config.decay, config.depthLevels), PowerSum(config.decay, |levels|))
  {
    hide BaseLevelVolume, Pow;
    if levels != [] {
      DepthIsPowerSum(c, config, levels[..|levels| - 1]);
    }
  }

  /** The true power sum differs from its length once a decay other than one has had a level to act on. */
  lemma {:induction false} PowerSumAgainstLength(decay: real, n: nat)
    requires decay >= 0.0
    ensures decay == 1.0 ==> Pow(decay, n) == 1.0 && PowerSum(decay, n) == n as real
    ensures decay < 1.0 ==> Pow(decay, n) <= 1.0 && PowerSum(decay, n) <= n as real
    ensures decay < 1.0 && n > 0 ==> Pow(decay, n) < 1.0
    ensures decay < 1.0 && n > 1 ==> PowerSum(decay, n) < n as real
    ensures decay > 1.0 ==> Pow(decay, n) >= 1.0 && PowerSum(decay, n) >= n as real
    ensures decay > 1.0 && n > 0 ==> Pow(decay, n) > 1.0
    ensures decay > 1.0 && n > 1 ==> PowerSum(decay, n) > n as real
  {
    if n > 0 {
      PowerSumAgainstLength(decay, n - 1);
      PowersArePositive(decay, n - 1);
      PowerStep(decay, Pow(decay, n - 1));
    }
  }

  lemma PowerStep(decay: real, power: real)
    requires decay >= 0.0 && power >= 0.0
    ensures decay == 1.0 ==> Times(power, decay) == power
    ensures decay < 1.0 && power <= 1.0 ==> Times(power, decay) < 1.0
    ensures decay > 1.0 && power >= 1.0 ==> Times(power, decay) > 1.0
  {
    if decay < 1.0 && power <= 1.0 {
      ScaleKeepsOrder(decay, power, 1.0);
      assert power * decay == decay * power;
    } else if decay > 1.0 && power >= 1.0 {
      ScaleKeepsOrder(decay, 1.0, power);
      assert power * decay == decay * power;
    }
  }

  lemma NormaliserIsPowerSum(decay: real, n: nat)
    requires Abs(decay - 1.0) >= UNIT_DECAY_TOLERANCE
    ensures GeoSum(decay, n) == PowerSum(decay, n)
  {}

  lemma Normalised(half: real, normaliser: real, sum: real)
    requires normaliser > 0.0
    ensures half == 0.0 ==> Times(half / normaliser, sum) == 0.0
    ensures half != 0.0 ==> (Times(half / normaliser, sum) == half <==> sum == normaliser)
  {}

  lemma {:induction false} PowOfNegative(decay: real, n: nat)
    ensures Pow(-decay, n) == if n % 2 == 0 then Pow(decay, n) else -Pow(decay, n)
  {
    if n > 0 {
      PowOfNegative(decay, n - 1);
      NegativeProducts(Pow(decay, n - 1), decay);
    }
  }

  lemma NegativeProducts(x: real, y: real)
    ensures Times(x, -y) == -Times(x, y) == Times(-x, y)
    ensures Times(-x, -y) == Times(x, y)
  {}

  /** The powers of a decay add up to something positive unless it is -1 or less and their number is even. */
  lemma PowerSumIsPositiveIff(decay: real, n: nat)
    ensures PowerSum(decay, n) > 0.0 <==> n > 0 && (decay > -1.0 || n % 2 == 1)
  {
    if n == 0 {
    } else if decay >= 0.0 {
      PowersArePositive(decay, n);
    } else {
      GeometricSeries(decay, n);
      PowOfNegative(-decay, n);
      PowersArePositive(-decay, n);
      PowerSumAgainstLength(-decay, n);
      hide Pow, PowerSum;
      ProductSign(1.0 - decay, PowerSum(decay, n));
    }
  }

  lemma ProductSign(k: real, x: real)
    requires k > 0.0
    ensures k * x > 0.0 <==> x > 0.0
  {}

  lemma Unnormalised(half: real, sum: real)
    requires sum <= 0.0
    ensures Times(half, sum) == half <==> half == 0.0
  {}

  /**
   * Each side's depth is half the bar volume exactly when the bar has none, or the book has a level, its decay is one,
   * or is told apart from one by the tolerance, or has only one level to act on, and is above -1 unless the levels are
   * odd in number.
   */
  lemma DepthIsHalfTheVolume(c: Candle, config: Config)
    ensures var book := FromCandleSpec(c, config);
            Depth(book.bids) == Depth(book.asks)
            && (Depth(book.asks) == c.volume / 2.0 <==>
                c.volume == 0.0
                || (config.depthLevels > 0
                    && (config.decay == 1.0 || config.depthLevels == 1
                        || Abs(config.decay - 1.0) >= 0.000000000001)
                    && (config.decay > -1.0 || config.depthLevels % 2 == 1)))
  {
    var book, n := FromCandleSpec(c, config), config.depthLevels;
    hide Pow, LevelVolume;
    var half, sum := c.volume / 2.0, PowerSum(config.decay, n);
    DepthIsPowerSum(c, config, book.asks);
    DepthIsPowerSum(c, config, book.bids);
    hide Depth, PowerSum;
    PowerSumIsPositiveIff(config.decay, n);
    if Abs(config.decay - 1.0) >= UNIT_DECAY_TOLERANCE {
      NormaliserIsPowerSum(config.decay, n);
    }
    hide GeoSum;
    if n == 0 {
      NoPowers(config.decay);
      TimesZero(BaseLevelVolume(c.volume, config.decay, n), sum);
    } else if sum <= 0.0 {
      Unnormalised(half, sum);
    } else {
      NormaliserIsPositive(config.decay, n);
      Normalised(half, GeoSum(config.decay, n), sum);
      if config.decay >= 0.0 {
        NormaliserAgainstSum(config.decay, n);
      }
    }
  }

  lemma NoPowers(decay: real)
    ensures PowerSum(decay, 0) == 0.0
  {}

  lemma NormaliserIsPositive(decay: real, n: nat)
    requires n > 0 && PowerSum(decay, n) > 0.0
    ensures GeoSum(decay, n) > 0.0
  {
    if Abs(decay - 1.0) >= UNIT_DECAY_TOLERANCE {
      NormaliserIsPowerSum(decay, n);
    }
  }

  /** Where the normaliser is the number of levels, it is the true sum only for one level or a decay of one. */
  lemma NormaliserAgainstSum(decay: real, n: nat)
    requires decay >= 0.0 && n > 0
    ensures PowerSum(decay, n) == GeoSum(decay, n) <==>
            decay == 1.0 || Abs(decay - 1.0) >= UNIT_DECAY_TOLERANCE || n == 1
  {
    hide Pow;
    if Abs(decay - 1.0) >= UNIT_DECAY_TOLERANCE {
      NormaliserIsPowerSum(decay, n);
    } else {
      PowerSumAgainstLength(decay, n);
      if n == 1 {
        OneLevel(decay);
      }
    }
  }

  lemma OneLevel(decay: real)
    ensures PowerSum(decay, 1) == 1.0
  {}

  // ---- Spread ----

  /** A candle and settings as the program is given them: positive close, ordered extremes, nothing negative. */
  predicate Sane(c: Candle, config: Config) {
    && c.close > 0.0 && c.low <= c.high && c.volume >= 0.0
    && config.spreadBps >= 0.0 && config.volatilityMultiplier >= 0.0 && config.maxWideningBps >= 0.0
    && config.decay >= 0.0
  }

  /** However wide the bar, volatility adds to the base half-spread no more than its cap, and never narrows it. */
  lemma HalfSpreadIsCapped(c: Candle, config: Config)
    requires Sane(c, config)
    ensures 0.0 <= BaseHalfSpread(c, config) <= HalfSpread(c, config) <= BaseHalfSpread(c, config)
            + WideningCap(c, config)
    ensures HalfSpread(c, config) == BaseHalfSpread(c, config)
            + Min((c.high - c.low) * config.volatilityMultiplier / 2.0, WideningCap(c, config))
    ensures Tick(c, config) > 0.0
  {}

  /**
   * A still bar is quoted at the base spread, a moving one at no more than the widening cap beyond it on either side;
   * and levels stand half a spread apart, a basis point of the close at the least.
   */
  lemma QuotedSpread(c: Candle, config: Config, i: nat)
    requires Sane(c, config) && i + 1 < config.depthLevels
    ensures var book := FromCandleSpec(c, config);
            var spread := book.bestAsk - book.bestBid;
            && (c.high == c.low ==> spread * 10000.0 == Times(c.close, config.spreadBps))
            && Times(c.close, config.spreadBps) <= spread * 10000.0
            && spread * 10000.0 <= Times(c.close, config.spreadBps) + 2.0 * Times(c.close, config.maxWideningBps)
            && book.asks[i + 1].price - book.asks[i].price == Max(spread / 2.0, c.close / 10000.0)
            && book.bids[i].price - book.bids[i + 1].price == Max(spread / 2.0, c.close / 10000.0)
  {
    HalfSpreadIsCapped(c, config);
    NextTick(Tick(c, config), i);
    hide HalfSpread, Times, LevelVolume;
    SpreadForms(c, config);
  }

  lemma NextTick(tick: real, i: nat)
    ensures Times(tick, (i + 1) as real) == Times(tick, i as real) + tick
  {}

  lemma SpreadForms(c: Candle, config: Config)
    ensures BaseHalfSpread(c, config) * 20000.0 == Times(c.close, config.spreadBps)
    ensures WideningCap(c, config) * 10000.0 == Times(c.close, config.maxWideningBps)
    ensures (c.high - c.low) * config.volatilityMultiplier / 2.0 == 0.0 || c.high != c.low
  {}

  // ---- Walking the book ----

  /** Cost of taking `remaining` from the levels; whatever the levels cannot fill costs `worst` a unit. */
  function WalkCost(levels: seq<DepthLevel>, worst: real, remaining: real): real {
    if remaining <= 0.0 then 0.0
    else if levels == [] then Times(worst, remaining)
    else
      var fill := Min(remaining, levels[0].volume);
      Times(levels[0].price, fill) + WalkCost(levels[1..], worst, remaining - fill)
  }

  function Levels(book: Book, side: BookSide): seq<DepthLevel> {
    if side.Bid? then book.asks else book.bids
  }

  function FillPrice(book: Book, size: real, side: BookSide): real {
    var levels := Levels(book, side);
    if levels == [] || size <= 0.0 then if side.Bid? then book.bestAsk else book.bestBid
    else WalkCost(levels, levels[|levels| - 1].price, size) / size
  }

  function SlippageBps(book: Book, size: real, side: BookSide): real {
    if Levels(book, side) == [] || size <= 0.0 || book.mid <= 0.0 then 0.0
    else Abs(FillPrice(book, size, side) - book.mid) / book.mid * 10000.0
  }

  /**
   * Slippage is the distance of the fill price from the mid, in basis points of the mid; nothing slips where nothing
   * fills.
   */
  lemma SlippageIsDistance(book: Book, size: real, side: BookSide)
    requires book.mid > 0.0
    ensures var moved := if Levels(book, side) ==
            [] || size <= 0.0 then 0.0 else FillPrice(book, size, side) - book.mid;
            Times(SlippageBps(book, size, side), book.mid) == 10000.0 * Abs(moved)
  {
    hide FillPrice;
    var distance := Abs(FillPrice(book, size, side) - book.mid);
    QuotientTimesDivisor(distance, book.mid);
    ScaledQuotient(distance / book.mid, book.mid);
  }

  lemma ScaledQuotient(x: real, y: real)
    ensures Times(x * 10000.0, y) == 10000.0 * (x * y)
  {}

  /** Walks the side opposite to the order. */
  method CalculateSlippage(book: Book, size: real, side: BookSide) returns (price: real, slippageBps: real)
    ensures price == FillPrice(book, size, side) && slippageBps == SlippageBps(book, size, side)
  {
    var levels := Levels(book, side);
    if levels == [] || size <= 0.0 {
      return if side.Bid? then book.bestAsk else book.bestBid, 0.0;
    }
    ghost var worst := levels[|levels| - 1].price;
    var remaining, cost, i := size, 0.0, 0;
    while i < |levels| && remaining > 0.0
      invariant 0 <= i <= |levels|
      invariant cost + WalkCost(levels[i..], worst, remaining) == WalkCost(levels, worst, size)
    {
      var fill := Min(remaining, levels[i].volume);
      assert levels[i..][1..] == levels[i + 1..];
      cost := cost + Times(levels[i].price, fill);
      remaining := remaining - fill;
      i := i + 1;
    }
    if remaining > 0.0 {
      cost := cost + Times(levels[|levels| - 1].price, remaining);
    }
    price := cost / size;
    slippageBps := if book.mid > 0.0 then Abs(price - book.mid) / book.mid * 10000.0 else 0.0;
  }

  /** Prices rise level by level from `floor` to at most `worst`; volumes are not negative. */
  ghost predicate Ascending(levels: seq<DepthLevel>, floor: real, worst: real) {
    if levels == [] then floor <= worst
    else floor <= levels[0].price && levels[0].volume >= 0.0 && Ascending(levels[1..], levels[0].price, worst)
  }

  lemma LowerFloor(levels: seq<DepthLevel>, floor: real, lower: real, worst: real)
    requires Ascending(levels, floor, worst) && lower <= floor
    ensures Ascending(levels, lower, worst)
  {}

  lemma WalkUnfolds(levels: seq<DepthLevel>, worst: real, size: real)
    requires levels != [] && levels[0].volume >= 0.0 && size >= 0.0
    ensures var fill := Min(size, levels[0].volume);
            WalkCost(levels, worst, size) == Times(levels[0].price, fill) + WalkCost(levels[1..], worst, size - fill)
  {}

  lemma TimesOrder(low: real, high: real, x: real, y: real)
    requires low <= high && x >= 0.0 && y >= 0.0
    ensures Times(low, x) <= Times(high, x)
    ensures Times(low, x) + Times(low, y) == Times(low, x + y)
    ensures Times(low, x - y) == Times(low, x) - Times(low, y)
  {}

  /** Each further unit costs at least the floor price. */
  lemma {:induction false} MarginalCost(levels: seq<DepthLevel>, floor: real, worst: real, s: real, t: real)
    requires Ascending(levels, floor, worst) && 0.0 <= s <= t
    ensures WalkCost(levels, worst, t) - WalkCost(levels, worst, s) >= Times(floor, t - s)
  {
    hide Times;
    if levels == [] {
      TimesZero(worst, 0.0);
      TimesOrder(floor, worst, t - s, s);
      TimesOrder(worst, worst, t, s);
    } else {
      var p, v := levels[0].price, levels[0].volume;
      var ft, fs := Min(t, v), Min(s, v);
      WalkUnfolds(levels, worst, t);
      WalkUnfolds(levels, worst, s);
      LowerFloor(levels[1..], p, floor, worst);
      MarginalCost(levels[1..], floor, worst, s - fs, t - ft);
      TimesOrder(p, p, ft, fs);
      TimesOrder(floor, p, ft - fs, (t - ft) - (s - fs));
    }
  }

  lemma AverageStep(s: real, t: real, v: real, p: real, a: real, b: real)
    requires 0.0 <= v < s <= t
    requires Times(t - v, a) <= Times(s - v, b)
    requires b - a >= Times(p, t - s)
    ensures Times(t, Times(p, v) + a) <= Times(s, Times(p, v) + b)
  {}

  lemma FirstLevelStep(s: real, t: real, p: real, cost: real)
    requires 0.0 <= s && cost >= Times(p, t)
    ensures Times(t, Times(p, s)) <= Times(s, cost)
  {}

  /** On rising levels the average price paid never falls as the order grows. */
  lemma {:induction false} AverageCostRises(levels: seq<DepthLevel>, floor: real, worst: real, s: real, t: real)
    requires Ascending(levels, floor, worst) && 0.0 < s <= t
    ensures Times(t, WalkCost(levels, worst, s)) <= Times(s, WalkCost(levels, worst, t))
  {
    if levels == [] {
      FirstLevelStep(s, t, worst, Times(worst, t));
    } else {
      var p, v, rest := levels[0].price, levels[0].volume, levels[1..];
      hide Times;
      WalkUnfolds(levels, worst, s);
      if s <= v {
        assert WalkCost(rest, worst, 0.0) == 0.0;
        FirstPriceIsFloor(levels, floor, worst);
        MarginalCost(levels, p, worst, 0.0, t);
        FirstLevelStep(s, t, p, WalkCost(levels, worst, t));
      } else {
        WalkUnfolds(levels, worst, t);
        AverageCostRises(rest, p, worst, s - v, t - v);
        MarginalCost(rest, p, worst, s - v, t - v);
        AverageStep(s, t, v, p, WalkCost(rest, worst, s - v), WalkCost(rest, worst, t - v));
      }
    }
  }

  lemma FirstPriceIsFloor(levels: seq<DepthLevel>, floor: real, worst: real)
    requires levels != [] && Ascending(levels, floor, worst)
    ensures Ascending(levels, levels[0].price, worst)
  {}

  // ---- The sell side, by reflection ----

  function Reflected(levels: seq<DepthLevel>): (r: seq<DepthLevel>)
    ensures |r| == |levels|
  {
    seq(|levels|, i requires 0 <= i < |levels| => DepthLevel(-levels[i].price, levels[i].volume))
  }

  lemma TimesNegated(x: real, y: real)
    ensures Times(-x, y) == -Times(x, y)
  {}

  lemma {:induction false} ReflectedCost(levels: seq<DepthLevel>, worst: real, size: real)
    ensures WalkCost(Reflected(levels), -worst, size) == -WalkCost(levels, worst, size)
  {
    hide Times;
    TimesNegated(worst, size);
    if size > 0.0 && levels != [] {
      var fill := Min(size, levels[0].volume);
      ReflectedCost(levels[1..], worst, size - fill);
      TimesNegated(levels[0].price, fill);
      assert Reflected(levels)[1..] == Reflected(levels[1..]);
    }
  }

  // ---- Average prices ----

  lemma {:induction false} RisingIsAscending(levels: seq<DepthLevel>, floor: real, worst: real)
    requires floor <= worst
    requires forall i :: 0 <= i < |levels| ==> floor <= levels[i].price <= worst && levels[i].volume >= 0.0
    requires forall i :: 0 <= i < |levels| - 1 ==> levels[i].price <= levels[i + 1].price
    ensures Ascending(levels, floor, worst)
  {
    if levels != [] {
      var rest := levels[1..];
      forall i | 0 <= i < |rest| ensures levels[0].price <= rest[i].price {
        PricesRise(levels, i + 1);
      }
      RisingIsAscending(rest, levels[0].price, worst);
    }
  }

  lemma {:induction false} PricesRise(levels: seq<DepthLevel>, i: nat)
    requires i < |levels| && forall i :: 0 <= i < |levels| - 1 ==> levels[i].price <= levels[i + 1].price
    ensures levels[0].price <= levels[i].price
  {
    if i > 0 {
      PricesRise(levels, i - 1);
    }
  }

  lemma BaseVolumeIsNonNegative(volume: real, decay: real, n: nat)
    requires volume >= 0.0
    ensures BaseLevelVolume(volume, decay, n) >= 0.0
  {
    hide GeoSum;
    if GeoSum(decay, n) > 0.0 {
      NonNegativeQuotient(volume / 2.0, GeoSum(decay, n));
    }
  }

  lemma TimesNonNegative(x: real, y: real)
    requires x >= 0.0 && y >= 0.0
    ensures Times(x, y) >= 0.0
  {}

  lemma LevelVolumeIsNonNegative(c: Candle, config: Config, i: nat)
    requires Sane(c, config)
    ensures LevelVolume(c, config, i) >= 0.0
  {
    hide Times, Pow, BaseLevelVolume;
    PowersArePositive(config.decay, i);
    BaseVolumeIsNonNegative(c.volume, config.decay, config.depthLevels);
    TimesNonNegative(BaseLevelVolume(c.volume, config.decay, config.depthLevels), Pow(config.decay, i));
  }

  lemma StepsRise(tick: real, i: nat, j: nat)
    requires tick >= 0.0 && i <= j
    ensures 0.0 <= Times(tick, i as real) <= Times(tick, j as real)
  {}

  /** Asks rise away from the best ask, bids fall away from the best bid, and the spread is not negative. */
  lemma BookIsOrdered(c: Candle, config: Config)
    requires Sane(c, config)
    ensures var book := FromCandleSpec(c, config);
            && book.bestBid <= book.mid <= book.bestAsk
            && (config.depthLevels > 0 ==>
                  && Ascending(book.asks, book.bestAsk, book.asks[config.depthLevels - 1].price)
                  && Ascending(Reflected(book.bids), -book.bestBid, -book.bids[config.depthLevels - 1].price))
  {
    hide Times, LevelVolume, Tick, HalfSpread, Ascending;
    HalfSpreadIsCapped(c, config);
    if config.depthLevels > 0 {
      var book, n, tick := FromCandleSpec(c, config), config.depthLevels, Tick(c, config);
      var down := Reflected(book.bids);
      forall i: nat | i < n
        ensures book.bestAsk <= book.asks[i].price <= book.asks[n - 1].price && book.asks[i].volume >= 0.0
        ensures -book.bestBid <= down[i].price <= down[n - 1].price && down[i].volume >= 0.0
        ensures i < n - 1 ==> book.asks[i].price <= book.asks[i + 1].price && down[i].price <= down[i + 1].price
      {
        LevelVolumeIsNonNegative(c, config, i);
        StepsRise(tick, 0, i);
        StepsRise(tick, i, n - 1);
        if i < n - 1 {
          StepsRise(tick, i, i + 1);
        }
      }
      RisingIsAscending(book.asks, book.bestAsk, book.asks[n - 1].price);
      RisingIsAscending(down, -book.bestBid, down[n - 1].price);
    }
  }

  function Average(levels: seq<DepthLevel>, worst: real, size: real): real
    requires size > 0.0
  {
    WalkCost(levels, worst, size) / size
  }

  /** The average rises with size and never beats the floor. */
  lemma AverageRises(levels: seq<DepthLevel>, floor: real, worst: real, s: real, t: real)
    requires Ascending(levels, floor, worst) && 0.0 < s <= t
    ensures floor <= Average(levels, worst, s) <= Average(levels, worst, t)
  {
    hide Times;
    var cs, ct := WalkCost(levels, worst, s), WalkCost(levels, worst, t);
    AverageCostRises(levels, floor, worst, s, t);
    MarginalCost(levels, floor, worst, 0.0, s);
    AveragesOrdered(floor, cs, ct, s, t);
  }

  lemma AveragesOrdered(floor: real, cs: real, ct: real, s: real, t: real)
    requires 0.0 < s <= t && Times(t, cs) <= Times(s, ct) && cs >= Times(floor, s)
    ensures floor <= cs / s <= ct / t
  {
    var a, b := cs / s, ct / t;
    QuotientTimesDivisor(cs, s);
    QuotientTimesDivisor(ct, t);
    CancelFactor(s, floor, a);
    ProductOfPositives(s, t);
    assert (s * t) * a == t * cs && (s * t) * b == s * ct;
    CancelFactor(s * t, a, b);
  }

  lemma BpsOrdered(mid: real, a: real, b: real)
    requires mid > 0.0 && 0.0 <= a <= b
    ensures a / mid * 10000.0 <= b / mid * 10000.0
  {}

  lemma ReflectedAverage(levels: seq<DepthLevel>, worst: real, size: real)
    requires size > 0.0
    ensures Average(Reflected(levels), -worst, size) == -Average(levels, worst, size)
  {
    hide WalkCost;
    ReflectedCost(levels, worst, size);
  }

  /** A larger buy pays a higher average price, never below the best ask, and slips by more basis points. */
  lemma BuysPayMore(c: Candle, config: Config, s: real, t: real)
    requires Sane(c, config) && 0.0 < s <= t
    ensures var book := FromCandleSpec(c, config);
            && book.bestAsk <= FillPrice(book, s, Bid) <= FillPrice(book, t, Bid)
            && SlippageBps(book, s, Bid) <= SlippageBps(book, t, Bid)
  {
    hide WalkCost, Ascending, FromCandleSpec;
    var book, n := FromCandleSpec(c, config), config.depthLevels;
    assert |book.asks| == n && book.mid == c.close by { BookShape(c, config); }
    BookIsOrdered(c, config);
    if n > 0 {
      var worst := book.asks[n - 1].price;
      AverageRises(book.asks, book.bestAsk, worst, s, t);
      assert FillPrice(book, s, Bid) == Average(book.asks, worst, s);
      assert FillPrice(book, t, Bid) == Average(book.asks, worst, t);
      BpsOrdered(book.mid, FillPrice(book, s, Bid) - book.mid, FillPrice(book, t, Bid) - book.mid);
    }
  }

  /** A larger sell receives a lower average price, never above the best bid, and slips by more basis points. */
  lemma SellsReceiveLess(c: Candle, config: Config, s: real, t: real)
    requires Sane(c, config) && 0.0 < s <= t
    ensures var book := FromCandleSpec(c, config);
            && book.bestBid >= FillPrice(book, s, Ask) >= FillPrice(book, t, Ask)
            && SlippageBps(book, s, Ask) <= SlippageBps(book, t, Ask)
  {
    hide WalkCost, Ascending, FromCandleSpec, Reflected;
    var book, n := FromCandleSpec(c, config), config.depthLevels;
    assert |book.bids| == n && book.mid == c.close by { BookShape(c, config); }
    BookIsOrdered(c, config);
    if n > 0 {
      var worst := book.bids[n - 1].price;
      AverageRises(Reflected(book.bids), -book.bestBid, -worst, s, t);
      ReflectedAverage(book.bids, worst, s);
      ReflectedAverage(book.bids, worst, t);
      assert FillPrice(book, s, Ask) == Average(book.bids, worst, s);
      assert FillPrice(book, t, Ask) == Average(book.bids, worst, t);
      BpsOrdered(book.mid, book.mid - FillPrice(book, s, Ask), book.mid - FillPrice(book, t, Ask));
    }
  }

  lemma BookShape(c: Candle, config: Config)
    ensures var book := FromCandleSpec(c, config);
            |book.bids| == |book.asks| == config.depthLevels && book.mid == c.close
  {}

  /** Buying and selling the same size at once against the same book never makes money. */
  lemma RoundTripNeverProfits(c: Candle, config: Config, size: real)
    requires Sane(c, config)
    ensures var book := FromCandleSpec(c, config);
            FillPrice(book, size, Ask) <= book.bestBid <= book.mid <= book.bestAsk <= FillPrice(book, size, Bid)
  {
    hide WalkCost, Ascending, FromCandleSpec, Reflected;
    BookIsOrdered(c, config);
    if size > 0.0 {
      BuysPayMore(c, config, size, size);
      SellsReceiveLess(c, config, size, size);
    }
  }
}
