/** What the candle simulator's fill costs, commissions and fee tiers amount to (backtest/src/candle_sim.rs). */
module CandleCosts {
  import opened Reals
  import opened Margin
  import opened CandleLedger
  import opened CandleSim
  import opened CandleRules

  // ---- Base slippage ----

  /** Thinner bars slip more, an average bar slips by the base, and a bar without volume by the most. */
  lemma SlippageFallsWithVolume(cfg: Config, thin: real, thick: real, avgVolume: real)
    requires SaneCosts(cfg) && 0.0 < thin <= thick && avgVolume > 0.0
    ensures SlippageBps(cfg, thick, avgVolume) <= SlippageBps(cfg, thin, avgVolume)
    ensures SlippageBps(cfg, 0.0, avgVolume) == WorstSlippageBps(cfg)
    ensures match cfg.slippage
            case Flat(bps) => SlippageBps(cfg, thin, avgVolume) == bps
            case VolumeAdjusted(baseBps, maxMultiplier) =>
              maxMultiplier >= 1.0 ==> SlippageBps(cfg, avgVolume, avgVolume) == baseBps
  {
    if cfg.slippage.VolumeAdjusted? {
      SlippageKeepsOrder(cfg, thin, thick, avgVolume);
      RootOfOne(cfg.root);
      SelfQuotient(avgVolume);
      hide IsRoot;
    }
  }

  lemma SlippageKeepsOrder(cfg: Config, thin: real, thick: real, avgVolume: real)
    requires SaneCosts(cfg) && 0.0 < thin <= thick && avgVolume > 0.0 && cfg.slippage.VolumeAdjusted?
    ensures SlippageBps(cfg, thick, avgVolume) <= SlippageBps(cfg, thin, avgVolume)
  {
    hide IsRoot, WorstBps;
    QuotientFalls(avgVolume, thin, thick);
    SlippageAt(cfg, thin, avgVolume);
    SlippageAt(cfg, thick, avgVolume);
    hide SlippageBps, SaneCosts;
    MultiplierKeepsOrder(cfg.root, cfg.slippage.baseBps, cfg.slippage.maxMultiplier, avgVolume / thick,
                         avgVolume / thin);
  }

  lemma SlippageAt(cfg: Config, volume: real, avgVolume: real)
    requires volume > 0.0 && avgVolume > 0.0 && cfg.slippage.VolumeAdjusted?
    ensures SlippageBps(cfg, volume, avgVolume)
            == cfg.slippage.baseBps * Min(cfg.root(avgVolume / volume), cfg.slippage.maxMultiplier)
  {}

  lemma MultiplierKeepsOrder(root: real -> real, base: real, most: real, low: real, high: real)
    requires IsRoot(root) && base >= 0.0 && 0.0 <= low <= high
    ensures base * Min(root(low), most) <= base * Min(root(high), most)
  {
    RootKeepsOrder(root, low, high);
    ScaleKeepsOrder(base, Min(root(low), most), Min(root(high), most));
  }

  lemma SelfQuotient(x: real)
    requires x > 0.0
    ensures x / x == 1.0
  {}

  lemma QuotientFalls(x: real, small: real, large: real)
    requires x > 0.0 && 0.0 < small <= large
    ensures 0.0 <= x / large <= x / small
  {
    QuotientTimesDivisor(x, small);
    QuotientTimesDivisor(x, large);
    NonNegativeQuotient(x, large);
    ScaleKeepsOrder(x / large, small, large);
    assert small * (x / large) == (x / large) * small;
    CancelFactor(small, x / large, x / small);
  }

  lemma RootOfOne(root: real -> real)
    requires IsRoot(root)
    ensures root(1.0) == 1.0
  {
    SquareOrder(root(1.0), 1.0);
    SquareOrder(1.0, root(1.0));
  }

  // ---- The three realism components ----

  /** A bar at one price. */
  predicate StillAt(bar: Bar, price: real) {
    bar.open == price && bar.high == price && bar.low == price && bar.close == price
  }

  /**
   * Impact follows the square root of the order's share of the bar: an order for the whole of a still bar moves the
   * price by the full impact, and a quarter of any order by half of what the order does.
   */
  lemma ImpactIsSquareRoot(cfg: Config, bar: Bar, price: real, share: real)
    requires IsRoot(cfg.root) && cfg.realism.impactK > 0.0 && bar.volume > 0.0 && price > 0.0 && StillAt(bar, price)
    requires 0.0 <= share <= 1.0
    ensures var whole := bar.volume * price;
            && ImpactBps(cfg, bar, whole) == cfg.realism.impactK * 10000.0
            && 2.0 * ImpactBps(cfg, bar, Times(share, whole) / 4.0) == ImpactBps(cfg, bar, Times(share, whole))
  {
    var whole := bar.volume * price;
    ProductOfPositives(bar.volume, price);
    StillParticipation(bar, price, 1.0);
    StillParticipation(bar, price, share);
    StillParticipation(bar, price, share / 4.0);
    QuarterOfShare(share, whole);
    TimesOne(whole);
    RootOfOne(cfg.root);
    RootOfQuarter(cfg.root, share);
    hide Participation, IsRoot, Times;
    var k, r := cfg.realism.impactK, cfg.root(share / 4.0);
    assert cfg.root(share) == 2.0 * r;
    DoubleProduct(k, r);
  }

  lemma TimesOne(x: real)
    ensures Times(1.0, x) == x
  {}

  lemma DoubleProduct(k: real, r: real)
    ensures 2.0 * (k * r * 10000.0) == k * (2.0 * r) * 10000.0
  {}

  lemma QuarterOfShare(share: real, whole: real)
    ensures Times(share, whole) / 4.0 == Times(share / 4.0, whole)
  {}

  lemma StillParticipation(bar: Bar, price: real, share: real)
    requires bar.volume > 0.0 && price > 0.0 && StillAt(bar, price)
    ensures Participation(bar, Times(share, bar.volume * price)) == share
  {
    var whole := bar.volume * price;
    ProductOfPositives(bar.volume, price);
    assert (bar.open + bar.high + bar.low + bar.close) * 0.25 == price;
    SameProduct(bar.volume, bar.volume, (bar.open + bar.high + bar.low + bar.close) * 0.25, price);
    QuotientOfTimes(share, whole);
  }

  lemma QuotientOfTimes(x: real, y: real)
    requires y != 0.0
    ensures Times(x, y) / y == x
  {}

  lemma RootOfQuarter(root: real -> real, share: real)
    requires IsRoot(root) && share >= 0.0
    ensures root(share) == 2.0 * root(share / 4.0)
  {
    var r := 2.0 * root(share / 4.0);
    assert r * r == share;
    SquareOrder(root(share), r);
    SquareOrder(r, root(share));
  }

  /** Crossing half the spread at the close costs at most half the bar's range, and just that below the cap. */
  lemma SpreadIsHalfTheRange(cfg: Config, bar: Bar)
    requires SaneBar(bar) && cfg.realism.spreadFromRange && cfg.realism.spreadCapBps >= 0.0
    ensures var cost := Slipped(bar.close, SpreadBps(cfg, bar, true), true) - bar.close;
            && 0.0 <= cost <= (bar.high - bar.low) / 2.0
            && ((bar.high - bar.low) / bar.close * 10000.0 <= cfg.realism.spreadCapBps ==>
                  cost == (bar.high - bar.low) / 2.0)
    ensures SpreadBps(cfg, bar, false) == 0.0
  {
    var share := (bar.high - bar.low) / bar.close;
    QuotientTimesDivisor(bar.high - bar.low, bar.close);
    NonNegativeQuotient(bar.high - bar.low, bar.close);
    var bps := SpreadBps(cfg, bar, true);
    ProductOfNonNegatives(bar.close, bps);
    ScaleKeepsOrder(bar.close, bps, share * 5000.0);
    assert bar.close * (share * 5000.0) == (share * bar.close) * 5000.0;
  }

  /**
   * Adverse selection fills an entry between the bar's open and its close, at the close below its bound, and only where
   * the bar went the order's way.
   */
  lemma AdverseFillsTowardsClose(cfg: Config, bar: Bar, isBuy: bool)
    requires SaneBar(bar) && cfg.realism.adverseSelection && cfg.realism.adverseMaxBps >= 0.0
    ensures var fill, went := Slipped(bar.open, AdverseBps(cfg, bar, isBuy, true), isBuy),
                              if isBuy then bar.close > bar.open else bar.close < bar.open;
            && (went ==> (if isBuy then bar.open <= fill <= bar.close else bar.close <= fill <= bar.open))
            && (went && Abs(bar.close - bar.open) / bar.open * 10000.0 <= cfg.realism.adverseMaxBps ==>
              fill == bar.close)
            && (!went ==> fill == bar.open)
    ensures AdverseBps(cfg, bar, isBuy, false) == 0.0
  {
    QuotientSign(bar.close - bar.open, bar.open);
    SlipByShare(bar.open, Abs(bar.close - bar.open), cfg.realism.adverseMaxBps);
  }

  /** A slip of a share of the price is at most the move the share stands for, and just that below the cap. */
  lemma SlipByShare(price: real, move: real, most: real)
    requires price > 0.0 && move >= 0.0 && most >= 0.0
    ensures var slip := price * Min(move / price * 10000.0, most) / 10000.0;
            0.0 <= slip <= move && (move / price * 10000.0 <= most ==> slip == move)
  {
    var share := move / price;
    QuotientTimesDivisor(move, price);
    NonNegativeQuotient(move, price);
    var bps := Min(share * 10000.0, most);
    ProductOfNonNegatives(price, bps);
    ScaleKeepsOrder(price, bps, share * 10000.0);
    assert price * (share * 10000.0) == (share * price) * 10000.0;
  }

  lemma QuotientSign(x: real, y: real)
    requires y > 0.0
    ensures x > 0.0 <==> x / y > 0.0
    ensures x < 0.0 <==> x / y < 0.0
    ensures Abs(x) / y == Abs(x / y)
  {
    QuotientTimesDivisor(x, y);
    if x > 0.0 {
      CancelStrictly(y, 0.0, x / y);
    } else if x < 0.0 {
      CancelStrictly(y, x / y, 0.0);
    }
  }

  // ---- One fill ----

  /**
   * What the components report, with the base slippage, is what the fill loses against its base price on the order's
   * units, for orders of a unit or more.
   */
  lemma ReportedCostsAreTheSlip(
    cfg: Config, price: real, isBuy: bool, bar: Bar, avgVolume: real, orderValue: real, isEntry: bool)
    requires price > 0.0 && orderValue >= price
    ensures var q, units := FillCosts(cfg, price, isBuy, bar, avgVolume, orderValue, isEntry), orderValue / price;
            var lost := if isBuy then q.price - price else price - q.price;
            Times(lost, units)
            == q.impact + q.spread + q.adverse + Times(price * SlippageBps(cfg, bar.volume, avgVolume) / 10000.0, units)
  {
    hide SlippageBps, ImpactBps, SpreadBps, AdverseBps;
    UnitsAtLeastOne(orderValue, price);
    SlipOnUnits(price, SlippageBps(cfg, bar.volume, avgVolume), ImpactBps(cfg, bar, orderValue),
                SpreadBps(cfg, bar, isEntry), AdverseBps(cfg, bar, isBuy, isEntry), orderValue / price);
  }

  lemma UnitsAtLeastOne(orderValue: real, price: real)
    requires price > 0.0 && orderValue >= price
    ensures orderValue / price >= 1.0
  {
    QuotientTimesDivisor(orderValue, price);
    CancelFactor(price, 1.0, orderValue / price);
  }

  lemma SlipOnUnits(price: real, base: real, impact: real, spread: real, adverse: real, units: real)
    ensures Times(price * (base + impact + spread + adverse) / 10000.0, units)
            == price * impact / 10000.0 * units + price * spread / 10000.0 * units + price * adverse / 10000.0 * units
               + Times(price * base / 10000.0, units)
  {
    var k := price / 10000.0;
    assert price * (base + impact + spread + adverse) / 10000.0
        == price * base / 10000.0 + price * impact / 10000.0 + price * spread / 10000.0 + price * adverse / 10000.0;
    FourParts(price * base / 10000.0, price * impact / 10000.0, price * spread / 10000.0, price * adverse / 10000.0,
              units);
  }

  lemma FourParts(a: real, b: real, c: real, d: real, units: real)
    ensures Times(a + b + c + d, units) == b * units + c * units + d * units + Times(a, units)
  {}

  /** Reported costs come only from the components switched on. */
  lemma SilentComponents(
    cfg: Config, price: real, isBuy: bool, bar: Bar, avgVolume: real, orderValue: real, isEntry: bool)
    ensures var q := FillCosts(cfg, price, isBuy, bar, avgVolume, orderValue, isEntry);
            && (cfg.realism.impactK <= 0.0 ==> q.impact == 0.0)
            && (!cfg.realism.spreadFromRange || !isEntry ==> q.spread == 0.0)
            && (!cfg.realism.adverseSelection || !isEntry ==> q.adverse == 0.0)
  {
    hide Participation;
  }

  // ---- Commissions ----

  /**
   * Closing books the price move less its commission; the commission is the rate on the value traded, and every value
   * traded counts towards the volume that earns fee tiers.
   */
  lemma CloseChargesCommission(s: State, fill: real)
    requires s.acct.Margined?
    ensures var after := CloseAtFill(s, fill);
            var charged := after.stats.commission - s.stats.commission;
            var value := after.stats.rollingVolume - s.stats.rollingVolume;
            && value == Value(Abs(s.acct.quantity), fill) && charged == Times(value, s.stats.rate)
            && |after.stats.pnls| == |s.stats.pnls| + 1
            && after.stats.pnls[|s.stats.pnls|] + charged == Unrealized(s.acct.quantity, s.acct.entry, fill)
            && after.stats.entryCommission == s.stats.entryCommission
  {
    hide Unrealized;
  }

  /** Opening charges the rate on the value opened, as an entry commission, and counts that value alike. */
  lemma OpenChargesCommission(cfg: Config, s: State, isLong: bool, value: real, fill: real)
    ensures var after := OpenAtFill(cfg, s, isLong, value, fill);
            var charged := after.stats.commission - s.stats.commission;
            && charged == Times(after.stats.rollingVolume - s.stats.rollingVolume, s.stats.rate)
            && charged == after.stats.entryCommission - s.stats.entryCommission
            && after.stats.rollingVolume - s.stats.rollingVolume == value && after.stats.pnls == s.stats.pnls
  {
    hide Opened;
  }

  // ---- Fee tiers ----

  /** Larger volumes pay lower fees. */
  predicate Rewarding(tiers: seq<Tier>, fallback: real) {
    && (forall i, j :: 0 <= i < j < |tiers| ==> tiers[i].takerFee >= tiers[j].takerFee)
    && forall i :: 0 <= i < |tiers| ==> tiers[i].takerFee <= fallback
  }

  /** The fee is that of the last tier the volume reaches, or the fallback where it reaches none. */
  lemma {:induction false} TierFeeIsLastReached(tiers: seq<Tier>, volume: real, fallback: real) returns (at: int)
    ensures -1 <= at < |tiers| && TierFee(tiers, volume, fallback) == if at < 0 then fallback else tiers[at].takerFee
    ensures at >= 0 ==> volume >= tiers[at].minVolume
    ensures forall i :: at < i < |tiers| ==> volume < tiers[i].minVolume
  {
    if tiers == [] {
      at := -1;
    } else if volume >= tiers[|tiers| - 1].minVolume {
      at := |tiers| - 1;
    } else {
      at := TierFeeIsLastReached(tiers[..|tiers| - 1], volume, fallback);
      forall i | at < i < |tiers| ensures volume < tiers[i].minVolume {
        if i < |tiers| - 1 {
          assert tiers[..|tiers| - 1][i] == tiers[i];
        }
      }
    }
  }

  /** Trading more never raises the fee, on any tiers that reward volume. */
  lemma MoreVolumeNeverCostsMore(tiers: seq<Tier>, small: real, large: real, fallback: real)
    requires Rewarding(tiers, fallback) && small <= large
    ensures TierFee(tiers, large, fallback) <= TierFee(tiers, small, fallback)
  {
    var at := TierFeeIsLastReached(tiers, small, fallback);
    var at' := TierFeeIsLastReached(tiers, large, fallback);
  }

  /**
   * The volume that earns a tier fades by a thirtieth of itself a whole day without a check, and is gone after thirty;
   * the check never runs ahead of the bars nor falls a day behind them; and the rate is the tier's, to within 1e-10.
   */
  lemma TierDecay(cfg: Config, bar: Bar, stats: Stats)
    requires cfg.realism.feeTiers.Some? && bar.timestamp >= stats.lastTierCheck && stats.rollingVolume >= 0.0
    ensures var after, days := DecayedStats(cfg, bar, stats), (bar.timestamp - stats.lastTierCheck) / 86400000;
            && 0 <= bar.timestamp - after.lastTierCheck < 86400000
            && (days == 0 ==> after == stats)
            && (days >= 30 ==> after.rollingVolume == 0.0)
            && (0 < days < 30 ==> 30.0 * after.rollingVolume == Times((30 - days) as real, stats.rollingVolume))
            && 0.0 <= after.rollingVolume <= stats.rollingVolume
            && (days > 0 ==>
                  Abs(TierFee(cfg.realism.feeTiers.value, after.rollingVolume, cfg.commissionRate) - after.rate)
                  <= 0.0000000001)
  {
    hide TierFee;
    var elapsed := bar.timestamp - stats.lastTierCheck;
    var days := elapsed / 86400000;
    var left := 30 - if days < 30 then days else 30;
    FadedVolume(stats.rollingVolume, left as real);
  }

  lemma FadedVolume(volume: real, left: real)
    requires volume >= 0.0 && 0.0 <= left <= 30.0
    ensures 0.0 <= volume * (left / 30.0) <= volume
    ensures 30.0 * (volume * (left / 30.0)) == Times(left, volume)
  {
    ScaleKeepsOrder(volume, left / 30.0, 1.0);
    ProductOfNonNegatives(volume, left / 30.0);
  }
}
