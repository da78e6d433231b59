/** What the candle simulator's exit levels, fill costs and volume cap guarantee (backtest/src/candle_sim.rs). */
module CandleRules {
  import opened Reals
  import opened Margin
  import opened CandleLedger
  import opened CandleSim

  // ---- Exits ----

  function StopLevel(stop: real, entry: real, side: Side): real {
    if side == Long then entry * (1.0 - stop) else entry * (1.0 + stop)
  }

  function TargetLevel(target: real, entry: real, side: Side): real {
    if side == Long then entry * (1.0 + target) else entry * (1.0 - target)
  }

  lemma LevelsAroundEntry(share: real, entry: real)
    requires entry > 0.0 && share >= 0.0
    ensures entry * (1.0 - share) <= entry <= entry * (1.0 + share)
  {
    ProductOfNonNegatives(entry, share);
    assert entry * (1.0 - share) == entry - entry * share && entry * (1.0 + share) == entry + entry * share;
  }

  /**
   * A stop leaves at a price the bar traded at, never better than its level and never at a gain; exactly at the level
   * unless the bar opened beyond it.
   */
  lemma StopIsExecutable(stop: real, bar: Bar, entry: real, side: Side)
    requires SaneBar(bar) && entry > 0.0 && stop >= 0.0
    ensures var level, base := StopLevel(stop, entry, side), StopBase(stop, bar, entry, side);
            && (base.Some? <==> if side == Long then bar.low <= level else bar.high >= level)
            && (base.Some? ==>
                  && bar.low <= base.value <= bar.high
                  && NoBetter(side, base.value, level) && NoBetter(side, base.value, entry)
                  && (base.value == level <==> NoBetter(side, level, bar.open)))
  {
    LevelsAroundEntry(stop, entry);
  }

  /**
   * A target leaves at its level and never at a loss; the level is a price of the bar exactly when the bar did not open
   * and stay beyond it, since a gap through a target is still booked at the level.
   */
  lemma TargetIsExecutableIff(target: real, bar: Bar, entry: real, side: Side)
    requires SaneBar(bar) && entry > 0.0 && target >= 0.0
    ensures var level, base := TargetLevel(target, entry, side), TargetBase(target, bar, entry, side);
            && (base.Some? <==> if side == Long then bar.high >= level else bar.low <= level)
            && (base.Some? ==>
                  && base.value == level && NoBetter(side, entry, base.value)
                  && (bar.low <= base.value <= bar.high <==>
                        if side == Long then bar.low <= level else level <= bar.high))
  {
    LevelsAroundEntry(target, entry);
  }

  function StopOf(cfg: Config, bar: Bar, entry: real, side: Side): Option<real> {
    if cfg.stopLoss.Some? then StopBase(cfg.stopLoss.value, bar, entry, side) else None
  }

  function TargetOf(cfg: Config, bar: Bar, entry: real, side: Side): Option<real> {
    if cfg.takeProfit.Some? then TargetBase(cfg.takeProfit.value, bar, entry, side) else None
  }

  /** A bar that opens and stays beyond a target, whose exit is nevertheless booked at the level it never traded at. */
  lemma TargetGapIsBookedAtLevel()
    ensures var bar := Bar(120.0, 130.0, 115.0, 125.0, 1.0, 0);
            SaneBar(bar) && TargetBase(0.1, bar, 100.0, Long) == Some(110.0) && 110.0 < bar.low
  {}

  /** What a bar looks like from the other side: prices reflected about `entry`. */
  function Reflected(bar: Bar, entry: real): Bar {
    bar.(open := 2.0 * entry - bar.open, high := 2.0 * entry - bar.low, low := 2.0 * entry - bar.high,
         close := 2.0 * entry - bar.close)
  }

  function ReflectedPrice(price: Option<real>, entry: real): Option<real> {
    if price.Some? then Some(2.0 * entry - price.value) else None
  }

  /** Both levels are touched by a bar that reaches equally far up and down from its open. */
  predicate Undecided(cfg: Config, bar: Bar, entry: real, side: Side) {
    && cfg.realism.intrabarPath && bar.high - bar.open == bar.open - bar.low
    && StopOf(cfg, bar, entry, side).Some? && TargetOf(cfg, bar, entry, side).Some?
  }

  lemma LevelsMirror(share: real, bar: Bar, entry: real, side: Side)
    ensures StopBase(share, Reflected(bar, entry), entry, side.Opposite()) ==
            ReflectedPrice(StopBase(share, bar, entry, side), entry)
    ensures TargetBase(share, Reflected(bar, entry), entry, side.Opposite()) ==
            ReflectedPrice(TargetBase(share, bar, entry, side), entry)
  {
    assert entry * (1.0 + share) == 2.0 * entry - entry * (1.0 - share);
  }

  /**
   * Longs and shorts are treated alike: reflecting the bar about the entry and turning the position round reflects the
   * exit, except exactly where the intrabar path leaves two different exits undecided. There the long leaves at its
   * stop and the short at its target.
   */
  lemma ExitsMirrorIff(cfg: Config, bar: Bar, entry: real, side: Side)
    ensures ExitBase(cfg, Reflected(bar, entry), entry, side.Opposite()) ==
            ReflectedPrice(ExitBase(cfg, bar, entry, side), entry)
       <==> !(Undecided(cfg, bar, entry, side) && StopOf(cfg, bar, entry, side) != TargetOf(cfg, bar, entry, side))
    ensures Undecided(cfg, bar, entry, side) ==>
              ExitBase(cfg, bar, entry, side)
              == if side == Long then StopOf(cfg, bar, entry, side) else TargetOf(cfg, bar, entry, side)
  {
    hide StopBase, TargetBase;
    if cfg.stopLoss.Some? {
      LevelsMirror(cfg.stopLoss.value, bar, entry, side);
    }
    if cfg.takeProfit.Some? {
      LevelsMirror(cfg.takeProfit.value, bar, entry, side);
    }
  }

  /**
   * Without the intrabar path a bar leaves at the worst of the levels it touches; turning the path on never worsens an
   * exit and decides neither whether there is one nor which levels it can be at.
   */
  lemma PathNeverWorsensExit(cfg: Config, bar: Bar, entry: real, side: Side)
    requires SaneBar(bar) && entry > 0.0
    requires (cfg.stopLoss.Some? ==> cfg.stopLoss.value >= 0.0)
             && (cfg.takeProfit.Some? ==> cfg.takeProfit.value >= 0.0)
    ensures var stop, target := StopOf(cfg, bar, entry, side), TargetOf(cfg, bar, entry, side);
            var plain := ExitBase(cfg.(realism := cfg.realism.(intrabarPath := false)), bar, entry, side);
            var path := ExitBase(cfg.(realism := cfg.realism.(intrabarPath := true)), bar, entry, side);
            && (plain.None? <==> stop.None? && target.None?) && (path.None? <==> plain.None?)
            && (plain.Some? ==>
                  plain in {stop, target} && path in {stop, target} && NoBetter(side, plain.value, path.value))
            && (stop.Some? ==> NoBetter(side, plain.value, stop.value))
            && (target.Some? ==> NoBetter(side, plain.value, target.value))
  {
    hide StopBase, TargetBase, SaneBar;
    if cfg.stopLoss.Some? {
      StopIsExecutable(cfg.stopLoss.value, bar, entry, side);
    }
    if cfg.takeProfit.Some? {
      TargetIsExecutableIff(cfg.takeProfit.value, bar, entry, side);
    }
  }

  // ---- Fill costs ----

  predicate Costlier(isBuy: bool, price: real, than: real) {
    if isBuy then price >= than else price <= than
  }

  lemma RootKeepsOrder(root: real -> real, x: real, y: real)
    requires IsRoot(root) && 0.0 <= x <= y
    ensures 0.0 <= root(x) <= root(y)
  {
    if root(x) > root(y) {
      SquareGrows(root(y), root(x));
    }
  }

  lemma SquareGrows(x: real, y: real)
    requires 0.0 <= x < y
    ensures x * x < y * y
  {
    ProductOfPositives(y - x, y + x);
  }

  lemma ParticipationGrows(bar: Bar, small: real, large: real)
    requires SaneBar(bar) && bar.volume > 0.0 && 0.0 <= small <= large
    ensures 0.0 <= Participation(bar, small) <= Participation(bar, large)
  {
    var vwap := (bar.open + bar.high + bar.low + bar.close) * 0.25;
    ProductOfPositives(bar.volume, vwap);
    QuotientOrder(small, large, bar.volume * vwap);
  }

  lemma QuotientOrder(x: real, y: real, d: real)
    requires d > 0.0 && 0.0 <= x <= y
    ensures 0.0 <= x / d <= y / d
  {
    NonNegativeQuotient(x, d);
    NonNegativeQuotient(y - x, d);
    assert y / d == x / d + (y - x) / d;
  }

  lemma ImpactGrows(cfg: Config, bar: Bar, small: real, large: real)
    requires IsRoot(cfg.root) && SaneBar(bar) && 0.0 <= small <= large
    ensures 0.0 <= ImpactBps(cfg, bar, small) <= ImpactBps(cfg, bar, large)
  {
    hide IsRoot, Participation, SaneBar;
    if cfg.realism.impactK > 0.0 && bar.volume > 0.0 {
      ParticipationGrows(bar, small, large);
      CappedRootGrows(cfg.root, cfg.realism.impactK, Participation(bar, small), Participation(bar, large));
    }
  }

  lemma CappedRootGrows(root: real -> real, k: real, x: real, y: real)
    requires IsRoot(root) && k > 0.0 && 0.0 <= x <= y
    ensures 0.0 <= k * root(Min(x, 1.0)) <= k * root(Min(y, 1.0))
  {
    hide IsRoot;
    var rx, ry := root(Min(x, 1.0)), root(Min(y, 1.0));
    RootKeepsOrder(root, Min(x, 1.0), Min(y, 1.0));
    ScaleKeepsOrder(k, rx, ry);
    ProductOfNonNegatives(k, rx);
  }

  lemma OtherCostsNonNegative(cfg: Config, bar: Bar, avgVolume: real, isBuy: bool, isEntry: bool)
    requires SaneCosts(cfg) && SaneBar(bar)
    ensures SlippageBps(cfg, bar.volume, avgVolume) >= 0.0
    ensures SpreadBps(cfg, bar, isEntry) >= 0.0 && AdverseBps(cfg, bar, isBuy, isEntry) >= 0.0
  {
    NonNegativeQuotient(bar.high - bar.low, bar.close);
    SlippageNonNegative(cfg, bar.volume, avgVolume);
  }

  lemma SlippageNonNegative(cfg: Config, volume: real, avgVolume: real)
    requires SaneCosts(cfg)
    ensures SlippageBps(cfg, volume, avgVolume) >= 0.0
  {
    match cfg.slippage
    case Flat(_) =>
    case VolumeAdjusted(baseBps, maxMultiplier) =>
      if volume > 0.0 && avgVolume > 0.0 {
        NonNegativeQuotient(avgVolume, volume);
        assert cfg.root(avgVolume / volume) >= 0.0;
        ProductOfNonNegatives(baseBps, Min(cfg.root(avgVolume / volume), maxMultiplier));
      } else {
        ProductOfNonNegatives(baseBps, maxMultiplier);
      }
  }

  lemma SlipGrows(price: real, bps: real, more: real, isBuy: bool)
    requires price > 0.0 && 0.0 <= bps <= more
    ensures Costlier(isBuy, Slipped(price, bps, isBuy), price)
    ensures Costlier(isBuy, Slipped(price, more, isBuy), Slipped(price, bps, isBuy))
  {
    ProductOfNonNegatives(price, bps);
    ScaleKeepsOrder(price, bps, more);
  }

  /** Fill costs never improve a price, and a larger order never fills at a better one. */
  lemma CostsGrowWithSize(
    cfg: Config, price: real, isBuy: bool, bar: Bar, avgVolume: real, small: real, large: real, isEntry: bool)
    requires SaneCosts(cfg) && SaneBar(bar) && price > 0.0 && 0.0 <= small <= large
    ensures var few, many := FillCosts(cfg, price, isBuy, bar, avgVolume, small, isEntry).price,
                             FillCosts(cfg, price, isBuy, bar, avgVolume, large, isEntry).price;
            Costlier(isBuy, few, price) && Costlier(isBuy, many, few)
  {
    hide SlippageBps, ImpactBps, SpreadBps, AdverseBps, ReportedCost, Slipped, SaneBar;
    assert IsRoot(cfg.root);
    hide SaneCosts, IsRoot;
    ImpactGrows(cfg, bar, small, large);
    OtherCostsNonNegative(cfg, bar, avgVolume, isBuy, isEntry);
    var rest := SlippageBps(cfg, bar.volume, avgVolume) + SpreadBps(cfg, bar, isEntry)
                + AdverseBps(cfg, bar, isBuy, isEntry);
    SlipGrows(price, rest + ImpactBps(cfg, bar, small), rest + ImpactBps(cfg, bar, large), isBuy);
  }

  // ---- Volume cap ----

  /**
   * An entry stays within the configured share of its bar's volume exactly when that share is positive or there is
   * nothing to buy: at a share of zero the cap is skipped and the whole order is taken. A bar without volume is never
   * traded.
   */
  lemma VolumeCapsPositionIff(cfg: Config, s: State, isLong: bool, base: real, bar: Bar, avgVolume: real, sizePct: real)
    requires SaneCosts(cfg) && SaneBar(bar) && base > 0.0
    requires s.acct.Margined? && s.acct.quantity == 0.0
    ensures var acct := OpenFrom(cfg, s, isLong, base, bar, avgVolume, sizePct).acct;
            var size := LeveragedNotional(Equity(s.acct, base), sizePct, cfg.leverage);
            && (bar.volume <= 0.0 ==> acct.quantity == 0.0)
            && (bar.volume > 0.0 ==>
                  (Abs(acct.quantity) <= Max(Times(bar.volume, cfg.fillFraction), 0.0) <==>
                   cfg.fillFraction > 0.0 || size <= 0.0))
  {
    hide FillCosts, SaneCosts, SaneBar, Equity, LeveragedNotional, InitialMargin, Units, Capped, Times;
    var size := LeveragedNotional(Equity(s.acct, base), sizePct, cfg.leverage);
    var q := FillCosts(cfg, base, isLong, bar, avgVolume, size, true);
    if bar.volume > 0.0 {
      var value := Capped(size, bar, cfg.fillFraction, q.price).0;
      OpenedFillIsPositive(cfg, s, isLong, base, bar, avgVolume, sizePct);
      CappedQuantity(size, bar, cfg.fillFraction, q.price);
    }
  }

  lemma CappedQuantity(size: real, bar: Bar, fraction: real, fill: real)
    requires bar.volume > 0.0
    requires Capped(size, bar, fraction, fill).0 > 0.0 ==> fill > 0.0
    ensures var value, share := Capped(size, bar, fraction, fill).0, Max(Times(bar.volume, fraction), 0.0);
            && (value > 0.0 <==> size > 0.0) && share >= 0.0
            && (value > 0.0 ==> Units(value, fill) >= 0.0 && (Units(value, fill) <= share <==> fraction > 0.0))
  {
    var value := Capped(size, bar, fraction, fill).0;
    if value > 0.0 {
      if fraction > 0.0 {
        QuantityWithinShare(size, bar, fraction, fill);
      } else {
        CapIsOff(size, bar, fraction, fill);
      }
    }
  }

  /** A share that is not positive leaves an order as it is. */
  lemma CapIsOff(size: real, bar: Bar, fraction: real, fill: real)
    requires bar.volume > 0.0 && fraction <= 0.0 && fill > 0.0
    ensures Capped(size, bar, fraction, fill) == (size, false)
    ensures Times(bar.volume, fraction) <= 0.0
    ensures size > 0.0 ==> Units(size, fill) > 0.0
  {
    ScaleKeepsOrder(bar.volume, fraction, 0.0);
    ScaleKeepsOrder(fill, bar.volume * fraction, 0.0);
    if size > 0.0 {
      QuotientTimesDivisor(size, fill);
      CancelStrictly(fill, 0.0, size / fill);
    }
  }

  /** With a share of zero, an order of 1000 at a price of 100 takes ten units of a bar that traded one. */
  lemma ZeroShareTakesWholeOrder()
    ensures var bar := Bar(100.0, 101.0, 99.0, 100.0, 1.0, 0);
            SaneBar(bar) && Capped(1000.0, bar, 0.0, 100.0) == (1000.0, false) && Units(1000.0, 100.0) == 10.0
  {}

  lemma QuantityWithinShare(size: real, bar: Bar, fraction: real, fill: real)
    requires bar.volume > 0.0 && fraction > 0.0 && fill > 0.0
    ensures var value := Capped(size, bar, fraction, fill).0;
            value > 0.0 ==> 0.0 <= Units(value, fill) <= Times(bar.volume, fraction)
  {
    var share := bar.volume * fraction;
    ProductOfPositives(bar.volume, fraction);
    ProductOfPositives(share, fill);
    var value := Capped(size, bar, fraction, fill).0;
    if value > 0.0 {
      QuotientOrder(value, share * fill, fill);
      QuotientTimesDivisor(share * fill, fill);
    }
  }
}
