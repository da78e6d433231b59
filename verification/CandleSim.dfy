/** The bar loop of the candle simulator (backtest/src/candle_sim.rs). */
module CandleSim {
  import opened Reals
  import opened Margin
  import opened CandleLedger
  import opened Drawdown

  const BUY := 1
  const SELL := -1
  const HOLD := 0
  const EXIT := 2
  const DAY_MS := 86400000

  /** Signals, bars and the size fraction in force at each bar. */
  datatype Feed = Feed(signals: seq<int>, bars: seq<Bar>, sizePct: seq<real>) {
    function Length(): nat {
      if |signals| <= |bars| then |signals| else |bars|
    }

    predicate Valid() {
      |sizePct| >= Length()
    }

    /** Averages every bar's volume over the simulated length. */
    function AverageVolume(): real
      requires Length() > 0
    {
      Sum(seq(|bars|, i requires 0 <= i < |bars| => bars[i].volume)) / Length() as real
    }

    /** Orders fill at the next bar's open; on the last bar, at its own close. */
    function FillBar(i: nat): Bar
      requires i < Length()
    {
      if i + 1 < Length() then bars[i + 1] else bars[i]
    }

    function FillBase(i: nat): real
      requires i < Length()
    {
      if i + 1 < Length() then bars[i + 1].open else bars[i].close
    }
  }

  // ---- The passes over one bar, in order ----

  /** The last tier whose minimum the volume reaches. */
  function TierFee(tiers: seq<Tier>, volume: real, fallback: real): real {
    if tiers == [] then fallback
    else
      var last := tiers[|tiers| - 1];
      if volume >= last.minVolume then last.takerFee else TierFee(tiers[..|tiers| - 1], volume, fallback)
  }

  /** Daily decay of the rolling volume and the fee tier it earns. */
  function DecayedStats(cfg: Config, bar: Bar, stats: Stats): Stats {
    var elapsed := bar.timestamp - stats.lastTierCheck;
    if cfg.realism.feeTiers.None? || elapsed < DAY_MS then stats
    else
      var days := elapsed / DAY_MS;
      var keep := (30 - if days < 30 then days else 30) as real / 30.0;
      var rolling := stats.rollingVolume * keep;
      var rate := TierFee(cfg.realism.feeTiers.value, rolling, cfg.commissionRate);
      var decayed := stats.(rollingVolume := rolling, lastTierCheck := stats.lastTierCheck + days * DAY_MS);
      if Abs(rate - decayed.rate) > 0.0000000001
      then decayed.(rate := rate, tierChanges := decayed.tierChanges + 1) else decayed
  }

  function DecayTiers(cfg: Config, bar: Bar, s: State): State {
    s.(stats := DecayedStats(cfg, bar, s.stats))
  }

  /** Whole funding intervals since the last charge; zero when none is due. */
  function FundingPeriods(cfg: Config, bar: Bar, stats: Stats): int {
    var elapsed := bar.timestamp - stats.lastFunding;
    if cfg.fundingRate8h > 0.0 && cfg.fundingIntervalMs > 0 && elapsed >= cfg.fundingIntervalMs
    then elapsed / cfg.fundingIntervalMs else 0
  }

  function FundingCost(cfg: Config, quantity: real, close: real, periods: int): real {
    Value(Abs(quantity), close) * cfg.fundingRate8h * periods as real
  }

  function ChargeFunding(cfg: Config, bar: Bar, s: State): State {
    var periods := FundingPeriods(cfg, bar, s.stats);
    if s.acct.quantity == 0.0 || periods == 0 then s
    else
      var cost := FundingCost(cfg, s.acct.quantity, bar.close, periods);
      s.(acct := Charged(s.acct, cost),
         stats := s.stats.(funding := s.stats.funding + cost,
                           lastFunding := s.stats.lastFunding + periods * cfg.fundingIntervalMs))
  }

  function SideOf(quantity: real): Side {
    if quantity > 0.0 then Long else Short
  }

  /** An involuntary exit at the penalised trigger, checked against the bar's extreme before any voluntary one. */
  function LiquidateIfCalled(cfg: Config, bar: Bar, avgVolume: real, s: State): State {
    var side := SideOf(s.acct.quantity);
    if s.acct.quantity != 0.0
       && IsLiquidated(if side == Long then bar.low else bar.high, s.acct.entry, side, cfg.leverage, cfg.maintenance)
    then
      var trigger := LiquidationPrice(s.acct.entry, side, cfg.leverage, cfg.maintenance).price;
      var closed := CloseFrom(cfg, s, LiquidationPenalty(trigger, side, cfg.penaltyBps), bar, avgVolume);
      closed.(stats := closed.stats.(liquidations := closed.stats.liquidations + 1))
    else s
  }

  /** Where a stop loss leaves: at its level, or at the open when the bar gapped through it. */
  function StopBase(stop: real, bar: Bar, entry: real, side: Side): Option<real> {
    match side
    case Long =>
      var level := entry * (1.0 - stop);
      if bar.low <= level then Some(if bar.open < level then bar.open else level) else None
    case Short =>
      var level := entry * (1.0 + stop);
      if bar.high >= level then Some(if bar.open > level then bar.open else level) else None
  }

  function TargetBase(target: real, bar: Bar, entry: real, side: Side): Option<real> {
    match side
    case Long =>
      var level := entry * (1.0 + target);
      if bar.high >= level then Some(level) else None
    case Short =>
      var level := entry * (1.0 - target);
      if bar.low <= level then Some(level) else None
  }

  /** When both trigger, the intrabar path decides if enabled; otherwise the stop wins. */
  function ExitBase(cfg: Config, bar: Bar, entry: real, side: Side): Option<real> {
    var stop := if cfg.stopLoss.Some? then StopBase(cfg.stopLoss.value, bar, entry, side) else None;
    var target := if cfg.takeProfit.Some? then TargetBase(cfg.takeProfit.value, bar, entry, side) else None;
    if stop.Some? && target.Some? && cfg.realism.intrabarPath then
      var upFirst := bar.high - bar.open < bar.open - bar.low;
      if upFirst == (side == Long) then target else stop
    else if stop.Some? then stop else target
  }

  function ExitIfTriggered(cfg: Config, bar: Bar, avgVolume: real, s: State): State {
    if s.acct.quantity == 0.0 then s
    else
      match ExitBase(cfg, bar, s.acct.entry, SideOf(s.acct.quantity))
      case None => s
      case Some(base) => CloseFrom(cfg, s, base, bar, avgVolume)
  }

  /** The latency drawn for bar `i`. */
  function Latency(realism: Realism, i: nat): real {
    var jitter := (((i * 7919) % 1000) as real / 500.0 - 1.0) * realism.latencyStd;
    Max(realism.latencyMean + jitter, 0.0)
  }

  predicate IsStale(cfg: Config, feed: Feed, i: nat)
    requires i < feed.Length()
  {
    && cfg.realism.latencyMean > 0.0 && i > 0
    && Latency(cfg.realism, i) > (feed.bars[i].timestamp - feed.bars[i - 1].timestamp) as real
    && feed.signals[i] != HOLD
  }

  function Act(cfg: Config, s: State, signal: int, base: real, bar: Bar, avgVolume: real, sizePct: real): State {
    if signal == BUY && s.acct.quantity <= 0.0 then
      var flat := if s.acct.quantity < 0.0 then CloseFrom(cfg, s, base, bar, avgVolume) else s;
      OpenFrom(cfg, flat, true, base, bar, avgVolume, sizePct)
    else if signal == SELL && s.acct.quantity >= 0.0 then
      var flat := if s.acct.quantity > 0.0 then CloseFrom(cfg, s, base, bar, avgVolume) else s;
      OpenFrom(cfg, flat, false, base, bar, avgVolume, sizePct)
    else if signal == EXIT && s.acct.quantity != 0.0 then CloseFrom(cfg, s, base, bar, avgVolume)
    else s
  }

  function ActOnSignal(cfg: Config, feed: Feed, i: nat, avgVolume: real, s: State): State
    requires feed.Valid() && i < feed.Length()
  {
    if IsStale(cfg, feed, i) then s.(stats := s.stats.(latencyRejected := s.stats.latencyRejected + 1))
    else Act(cfg, s, feed.signals[i], feed.FillBase(i), feed.FillBar(i), avgVolume, feed.sizePct[i])
  }

  predicate StopsEarly(cfg: Config, i: nat, equity: real) {
    && cfg.earlyTerm.Some? && i > 0 && cfg.earlyTerm.value.checkInterval > 0
    && i % cfg.earlyTerm.value.checkInterval == 0
    && equity < cfg.initialCapital * (1.0 - cfg.earlyTerm.value.maxLossPct)
  }

  function MarkBar(cfg: Config, bar: Bar, i: nat, s: State): State {
    var equity := Equity(s.acct, bar.close);
    var peak := Max(equity, s.peak);
    s.(curve := if cfg.trackCurve then s.curve + [equity] else s.curve,
       peak := peak, drawdown := Max(s.drawdown, Fall(peak, equity)),
       stopped := StopsEarly(cfg, i, equity))
  }

  function BeforeSignal(cfg: Config, bar: Bar, avgVolume: real, s: State): State {
    ExitIfTriggered(cfg, bar, avgVolume,
      LiquidateIfCalled(cfg, bar, avgVolume, ChargeFunding(cfg, bar, DecayTiers(cfg, bar, s))))
  }

  function StepBar(cfg: Config, feed: Feed, i: nat, s: State): State
    requires feed.Valid() && i < feed.Length()
  {
    var bar, avgVolume := feed.bars[i], feed.AverageVolume();
    MarkBar(cfg, bar, i, ActOnSignal(cfg, feed, i, avgVolume, BeforeSignal(cfg, bar, avgVolume, s)))
  }

  function InitialStats(cfg: Config, start: int): Stats {
    Stats([], 0, 0, 0.0, 0.0, 0.0, 0.0, 0.0, 0, 0.0, 0.0, 0.0, 0, 0, 0,
          cfg.realism.startingVolume, cfg.commissionRate, start, start)
  }

  function Start(cfg: Config, feed: Feed, acct: Account): State
    requires feed.Length() > 0
  {
    State(acct, InitialStats(cfg, feed.bars[0].timestamp), [], cfg.initialCapital, 0.0, false)
  }

  /** The state after at most `k` bars; an early stop freezes it. */
  function RunBars(cfg: Config, feed: Feed, acct: Account, k: nat): State
    requires feed.Valid() && 0 < feed.Length() && k <= feed.Length()
  {
    if k == 0 then Start(cfg, feed, acct)
    else
      var s := RunBars(cfg, feed, acct, k - 1);
      if s.stopped then s else StepBar(cfg, feed, k - 1, s)
  }

  /** A position still open after the loop leaves at the last close of the whole feed. */
  function Finish(cfg: Config, feed: Feed, s: State): State
    requires 0 < feed.Length()
  {
    if s.acct.quantity == 0.0 then s
    else
      var last := feed.bars[feed.Length() - 1];
      var closed := CloseFrom(cfg, s, last.close, last, feed.AverageVolume());
      closed.(curve := if cfg.trackCurve && |closed.curve| > 0
                       then closed.curve[..|closed.curve| - 1] + [closed.acct.cash] else closed.curve)
  }

  function RunFrom(cfg: Config, feed: Feed, acct: Account): State
    requires feed.Valid() && 0 < feed.Length()
  {
    Finish(cfg, feed, RunBars(cfg, feed, acct, feed.Length()))
  }

  /** The simulator: a margined account. */
  function Simulate(cfg: Config, feed: Feed): State
    requires feed.Valid() && 0 < feed.Length()
  {
    RunFrom(cfg, feed, Margined(cfg.initialCapital, 0.0, 0.0, 0.0))
  }

  /** The ledger before leverage existed: the same run on a spot account. */
  function SimulateSpot(cfg: Config, feed: Feed): State
    requires feed.Valid() && 0 < feed.Length()
  {
    RunFrom(cfg, feed, Spot(cfg.initialCapital, 0.0, 0.0))
  }

  // ---- Fills stay positive ----

  function WorstSlippageBps(cfg: Config): real {
    match cfg.slippage
    case Flat(bps) => bps
    case VolumeAdjusted(baseBps, maxMultiplier) => baseBps * maxMultiplier
  }

  function WorstBps(cfg: Config): real {
    WorstSlippageBps(cfg) + cfg.realism.impactK * 10000.0 + cfg.realism.spreadCapBps * 0.5 + cfg.realism.adverseMaxBps
  }

  /** Cost parameters are non-negative and together below the whole price. */
  ghost predicate SaneCosts(cfg: Config) {
    && IsRoot(cfg.root)
    && (match cfg.slippage
        case Flat(bps) => bps >= 0.0
        case VolumeAdjusted(baseBps, maxMultiplier) => baseBps >= 0.0 && maxMultiplier >= 0.0)
    && cfg.realism.impactK >= 0.0 && cfg.realism.spreadCapBps >= 0.0 && cfg.realism.adverseMaxBps >= 0.0
    && WorstBps(cfg) < 10000.0
  }

  predicate SaneBar(bar: Bar) {
    0.0 < bar.low <= bar.open <= bar.high && bar.low <= bar.close <= bar.high
  }

  ghost predicate Sane(cfg: Config, feed: Feed) {
    && feed.Valid() && 0 < feed.Length() && SaneCosts(cfg)
    && forall i :: 0 <= i < |feed.bars| ==> SaneBar(feed.bars[i])
  }

  lemma RootInUnit(root: real -> real, x: real)
    requires IsRoot(root) && 0.0 <= x <= 1.0
    ensures 0.0 <= root(x) <= 1.0
  {}

  lemma SlippageBounded(cfg: Config, volume: real, avgVolume: real)
    requires SaneCosts(cfg)
    ensures 0.0 <= SlippageBps(cfg, volume, avgVolume) <= WorstSlippageBps(cfg)
  {}

  lemma ImpactBounded(cfg: Config, bar: Bar, orderValue: real)
    requires SaneCosts(cfg) && SaneBar(bar) && orderValue >= 0.0
    ensures 0.0 <= ImpactBps(cfg, bar, orderValue) <= cfg.realism.impactK * 10000.0
  {
    if cfg.realism.impactK > 0.0 && bar.volume > 0.0 {
      ParticipationIsNonNegative(bar, orderValue);
      hide Participation, SaneBar;
      var impactK, root := cfg.realism.impactK, cfg.root(Min(Participation(bar, orderValue), 1.0));
      RootInUnit(cfg.root, Min(Participation(bar, orderValue), 1.0));
      ScaleKeepsOrder(impactK, 0.0, root);
      ScaleKeepsOrder(impactK, root, 1.0);
      assert 0.0 <= impactK * root <= impactK;
      assert ImpactBps(cfg, bar, orderValue) == impactK * root * 10000.0;
    }
  }

  lemma ParticipationIsNonNegative(bar: Bar, orderValue: real)
    requires SaneBar(bar) && bar.volume > 0.0 && orderValue >= 0.0
    ensures Participation(bar, orderValue) >= 0.0
  {
    var vwap := (bar.open + bar.high + bar.low + bar.close) * 0.25;
    ProductOfPositives(bar.volume, vwap);
    NonNegativeQuotient(orderValue, bar.volume * vwap);
  }

  lemma RangeBounded(cfg: Config, bar: Bar, isBuy: bool, isEntry: bool)
    requires SaneCosts(cfg) && SaneBar(bar)
    ensures 0.0 <= SpreadBps(cfg, bar, isEntry) <= cfg.realism.spreadCapBps * 0.5
    ensures 0.0 <= AdverseBps(cfg, bar, isBuy, isEntry) <= cfg.realism.adverseMaxBps
  {}

  lemma FillIsPositive(
    cfg: Config, price: real, isBuy: bool, bar: Bar, avgVolume: real, orderValue: real, isEntry: bool)
    requires SaneCosts(cfg) && SaneBar(bar) && price > 0.0 && orderValue >= 0.0
    ensures FillCosts(cfg, price, isBuy, bar, avgVolume, orderValue, isEntry).price > 0.0
  {
    hide SlippageBps, WorstSlippageBps, ImpactBps, SpreadBps, AdverseBps, ReportedCost, Slipped, IsRoot;
    SlippageBounded(cfg, bar.volume, avgVolume);
    ImpactBounded(cfg, bar, orderValue);
    RangeBounded(cfg, bar, isBuy, isEntry);
    SlippedIsPositive(price, SlippageBps(cfg, bar.volume, avgVolume) + ImpactBps(cfg, bar, orderValue)
                             + SpreadBps(cfg, bar, isEntry) + AdverseBps(cfg, bar, isBuy, isEntry), isBuy);
  }

  lemma SlippedIsPositive(price: real, bps: real, isBuy: bool)
    requires price > 0.0 && 0.0 <= bps < 10000.0
    ensures Slipped(price, bps, isBuy) > 0.0
  {}

  // ---- What every run keeps: the balance, whatever the settings and the bars ----

  lemma CostedKeepsBalance(initial: real, s: State, q: FillQuote, skips: nat)
    requires Balanced(initial, s)
    ensures Balanced(initial, s.(stats := Costed(s.stats, q)))
    ensures Balanced(initial, s.(stats := Costed(s.stats, q).(skips := skips)))
  {}

  lemma CloseFromKeepsBalance(cfg: Config, s: State, base: real, bar: Bar, avgVolume: real)
    requires Balanced(cfg.initialCapital, s)
    ensures var closed := CloseFrom(cfg, s, base, bar, avgVolume);
            Balanced(cfg.initialCapital, closed) && closed.acct == Margined(closed.acct.cash, 0.0, 0.0, 0.0)
  {
    hide FillCosts, CloseAtFill, Value, Balanced;
    var q := FillCosts(cfg, base, s.acct.quantity <= 0.0, bar, avgVolume, Value(Abs(s.acct.quantity), base), false);
    CostedKeepsBalance(cfg.initialCapital, s, q, 0);
    CloseKeepsBalance(cfg.initialCapital, s.(stats := Costed(s.stats, q)), q.price);
  }

  lemma OpenFromKeepsBalance(
    cfg: Config, s: State, isLong: bool, base: real, bar: Bar, avgVolume: real, sizePct: real)
    requires Balanced(cfg.initialCapital, s)
    ensures Balanced(cfg.initialCapital, OpenFrom(cfg, s, isLong, base, bar, avgVolume, sizePct))
  {
    hide FillCosts, LeveragedNotional, Equity, Capped, OpenAtFill, Balanced;
    var size := LeveragedNotional(Equity(s.acct, base), sizePct, cfg.leverage);
    var q := FillCosts(cfg, base, isLong, bar, avgVolume, size, true);
    var (value, constrained) := Capped(size, bar, cfg.fillFraction, q.price);
    var skips := s.stats.skips + if constrained then 1 else 0;
    CostedKeepsBalance(cfg.initialCapital, s, q, skips);
    OpenKeepsBalance(cfg.initialCapital, cfg, s.(stats := Costed(s.stats, q).(skips := skips)), isLong, value, q.price);
  }

  lemma FundedKeepsBalance(cfg: Config, bar: Bar, s: State)
    requires Balanced(cfg.initialCapital, s)
    ensures Balanced(cfg.initialCapital, ChargeFunding(cfg, bar, DecayTiers(cfg, bar, s)))
  {
    hide FundingCost, FundingPeriods, TierFee, Sum, Gains;
  }

  lemma BeforeSignalKeepsBalance(cfg: Config, bar: Bar, avgVolume: real, s: State)
    requires Balanced(cfg.initialCapital, s)
    ensures Balanced(cfg.initialCapital, BeforeSignal(cfg, bar, avgVolume, s))
  {
    hide Balanced, CloseFrom, DecayTiers, ChargeFunding, ExitBase;
    FundedKeepsBalance(cfg, bar, s);
    var funded := ChargeFunding(cfg, bar, DecayTiers(cfg, bar, s));
    LiquidatedKeepsBalance(cfg, bar, avgVolume, funded);
    var left := LiquidateIfCalled(cfg, bar, avgVolume, funded);
    match ExitBase(cfg, bar, left.acct.entry, SideOf(left.acct.quantity))
    case None =>
    case Some(base) => CloseFromKeepsBalance(cfg, left, base, bar, avgVolume);
  }

  lemma LiquidatedKeepsBalance(cfg: Config, bar: Bar, avgVolume: real, s: State)
    requires Balanced(cfg.initialCapital, s)
    ensures Balanced(cfg.initialCapital, LiquidateIfCalled(cfg, bar, avgVolume, s))
  {
    hide CloseFrom, LiquidationPenalty, Sum, Gains;
    var side := SideOf(s.acct.quantity);
    if IsLiquidated(if side == Long then bar.low else bar.high, s.acct.entry, side, cfg.leverage, cfg.maintenance) {
      var trigger := LiquidationPrice(s.acct.entry, side, cfg.leverage, cfg.maintenance).price;
      CloseFromKeepsBalance(cfg, s, LiquidationPenalty(trigger, side, cfg.penaltyBps), bar, avgVolume);
    }
  }

  lemma ActKeepsBalance(
    cfg: Config, s: State, signal: int, base: real, bar: Bar, avgVolume: real, sizePct: real)
    requires Balanced(cfg.initialCapital, s)
    ensures Balanced(cfg.initialCapital, Act(cfg, s, signal, base, bar, avgVolume, sizePct))
  {
    hide CloseFrom, OpenFrom, Balanced;
    CloseFromKeepsBalance(cfg, s, base, bar, avgVolume);
    var closed := CloseFrom(cfg, s, base, bar, avgVolume);
    if signal == BUY {
      OpenFromKeepsBalance(cfg, if s.acct.quantity < 0.0 then closed else s, true, base, bar, avgVolume, sizePct);
    } else if signal == SELL {
      OpenFromKeepsBalance(cfg, if s.acct.quantity > 0.0 then closed else s, false, base, bar, avgVolume, sizePct);
    }
  }

  lemma StepKeepsBalance(cfg: Config, feed: Feed, i: nat, s: State)
    requires feed.Valid() && i < feed.Length() && Balanced(cfg.initialCapital, s)
    ensures Balanced(cfg.initialCapital, StepBar(cfg, feed, i, s))
  {
    hide BeforeSignal, Act, Sum, Gains, Equity, Fall, StopsEarly, Latency;
    var bar, avgVolume := feed.bars[i], feed.AverageVolume();
    BeforeSignalKeepsBalance(cfg, bar, avgVolume, s);
    ActKeepsBalance(cfg, BeforeSignal(cfg, bar, avgVolume, s), feed.signals[i], feed.FillBase(i), feed.FillBar(i),
                    avgVolume, feed.sizePct[i]);
  }

  /**
   * After every bar, for any settings and any prices: cash and posted margin are the initial capital, plus every trade,
   * less entry commissions and funding, and the statistics describe exactly the logged trades.
   */
  lemma {:induction false} BarsKeepBalance(cfg: Config, feed: Feed, k: nat)
    requires feed.Valid() && 0 < feed.Length() && k <= feed.Length()
    ensures Balanced(cfg.initialCapital, RunBars(cfg, feed, Margined(cfg.initialCapital, 0.0, 0.0, 0.0), k))
  {
    hide StepBar;
    if k > 0 {
      BarsKeepBalance(cfg, feed, k - 1);
      var s := RunBars(cfg, feed, Margined(cfg.initialCapital, 0.0, 0.0, 0.0), k - 1);
      if !s.stopped {
        StepKeepsBalance(cfg, feed, k - 1, s);
      }
    }
  }

  // ---- What every run keeps on sane settings and bars: the posted margin ----

  /** The account's margin is exactly what its position posts. */
  ghost predicate Sound(cfg: Config, s: State) {
    Posted(s.acct, cfg.leverage)
  }

  lemma CloseKeepsSound(cfg: Config, s: State, base: real, bar: Bar, avgVolume: real)
    requires Sound(cfg, s)
    ensures Sound(cfg, CloseFrom(cfg, s, base, bar, avgVolume))
    ensures CloseFrom(cfg, s, base, bar, avgVolume).acct.quantity == 0.0
  {
    hide FillCosts, Value, InitialMargin, Unrealized;
  }

  /** Only a positive size that fits the bar is opened, at a positive price. */
  lemma OpenedFillIsPositive(
    cfg: Config, s: State, isLong: bool, base: real, bar: Bar, avgVolume: real, sizePct: real)
    requires SaneCosts(cfg) && SaneBar(bar) && base > 0.0
    ensures var size := LeveragedNotional(Equity(s.acct, base), sizePct, cfg.leverage);
            var q := FillCosts(cfg, base, isLong, bar, avgVolume, size, true);
            Capped(size, bar, cfg.fillFraction, q.price).0 > 0.0 ==> q.price > 0.0
  {
    hide FillCosts, LeveragedNotional, Equity, SaneCosts;
    var size := LeveragedNotional(Equity(s.acct, base), sizePct, cfg.leverage);
    if size >= 0.0 {
      FillIsPositive(cfg, base, isLong, bar, avgVolume, size, true);
    }
  }

  lemma OpenKeepsSound(
    cfg: Config, s: State, isLong: bool, base: real, bar: Bar, avgVolume: real, sizePct: real)
    requires Sound(cfg, s) && s.acct.quantity == 0.0 && SaneCosts(cfg) && SaneBar(bar) && base > 0.0
    ensures Sound(cfg, OpenFrom(cfg, s, isLong, base, bar, avgVolume, sizePct))
  {
    hide FillCosts, LeveragedNotional, Equity, Capped, Opened, Posted, Value, SaneCosts;
    OpenedFillIsPositive(cfg, s, isLong, base, bar, avgVolume, sizePct);
    var size := LeveragedNotional(Equity(s.acct, base), sizePct, cfg.leverage);
    var q := FillCosts(cfg, base, isLong, bar, avgVolume, size, true);
    var value := Capped(size, bar, cfg.fillFraction, q.price).0;
    if value > 0.0 && bar.volume > 0.0 {
      OpenedIsPosted(s.acct, isLong, value, q.price, Value(value, s.stats.rate), cfg.leverage);
    }
  }

  lemma DecayKeepsSound(cfg: Config, bar: Bar, s: State)
    requires Sound(cfg, s)
    ensures Sound(cfg, DecayTiers(cfg, bar, s)) && DecayTiers(cfg, bar, s).acct == s.acct
  {}

  lemma FundingKeepsSound(cfg: Config, bar: Bar, s: State)
    requires Sound(cfg, s)
    ensures Sound(cfg, ChargeFunding(cfg, bar, s))
  {}

  lemma BeforeSignalKeepsSound(cfg: Config, bar: Bar, avgVolume: real, s: State)
    requires Sound(cfg, s)
    ensures Sound(cfg, BeforeSignal(cfg, bar, avgVolume, s))
  {
    hide Sound, CloseFrom, DecayTiers, ChargeFunding, IsLiquidated, LiquidationPrice, LiquidationPenalty, ExitBase;
    DecayKeepsSound(cfg, bar, s);
    FundingKeepsSound(cfg, bar, DecayTiers(cfg, bar, s));
    var funded := ChargeFunding(cfg, bar, DecayTiers(cfg, bar, s));
    LiquidationKeepsSound(cfg, bar, avgVolume, funded);
    ExitKeepsSound(cfg, bar, avgVolume, LiquidateIfCalled(cfg, bar, avgVolume, funded));
  }

  lemma LiquidationKeepsSound(cfg: Config, bar: Bar, avgVolume: real, s: State)
    requires Sound(cfg, s)
    ensures Sound(cfg, LiquidateIfCalled(cfg, bar, avgVolume, s))
  {
    hide CloseFrom, LiquidationPenalty, InitialMargin, Value;
    var side := SideOf(s.acct.quantity);
    if IsLiquidated(if side == Long then bar.low else bar.high, s.acct.entry, side, cfg.leverage, cfg.maintenance) {
      var trigger := LiquidationPrice(s.acct.entry, side, cfg.leverage, cfg.maintenance).price;
      CloseKeepsSound(cfg, s, LiquidationPenalty(trigger, side, cfg.penaltyBps), bar, avgVolume);
    }
  }

  lemma ExitKeepsSound(cfg: Config, bar: Bar, avgVolume: real, s: State)
    requires Sound(cfg, s)
    ensures Sound(cfg, ExitIfTriggered(cfg, bar, avgVolume, s))
  {
    hide CloseFrom, ExitBase, Sound;
    match ExitBase(cfg, bar, s.acct.entry, SideOf(s.acct.quantity))
    case None =>
    case Some(base) => CloseKeepsSound(cfg, s, base, bar, avgVolume);
  }

  lemma ActKeepsSound(cfg: Config, s: State, signal: int, base: real, bar: Bar, avgVolume: real, sizePct: real)
    requires Sound(cfg, s) && SaneCosts(cfg) && SaneBar(bar) && base > 0.0
    ensures Sound(cfg, Act(cfg, s, signal, base, bar, avgVolume, sizePct))
  {
    hide CloseFrom, OpenFrom, Sound, SaneCosts;
    CloseKeepsSound(cfg, s, base, bar, avgVolume);
    var closed := CloseFrom(cfg, s, base, bar, avgVolume);
    if signal == BUY && s.acct.quantity <= 0.0 {
      OpenKeepsSound(cfg, if s.acct.quantity < 0.0 then closed else s, true, base, bar, avgVolume, sizePct);
    } else if signal == SELL && s.acct.quantity >= 0.0 {
      OpenKeepsSound(cfg, if s.acct.quantity > 0.0 then closed else s, false, base, bar, avgVolume, sizePct);
    }
  }

  lemma StepKeepsSound(cfg: Config, feed: Feed, i: nat, s: State)
    requires Sane(cfg, feed) && i < feed.Length() && Sound(cfg, s)
    ensures Sound(cfg, StepBar(cfg, feed, i, s))
  {
    hide BeforeSignal, Act, SaneCosts, InitialMargin, Value, Equity, Fall, StopsEarly;
    var bar, avgVolume := feed.bars[i], feed.AverageVolume();
    BeforeSignalKeepsSound(cfg, bar, avgVolume, s);
    ActKeepsSound(cfg, BeforeSignal(cfg, bar, avgVolume, s), feed.signals[i], feed.FillBase(i), feed.FillBar(i),
                  avgVolume, feed.sizePct[i]);
  }

  lemma {:induction false} BarsKeepSound(cfg: Config, feed: Feed, k: nat)
    requires Sane(cfg, feed) && k <= feed.Length()
    ensures Sound(cfg, RunBars(cfg, feed, Margined(cfg.initialCapital, 0.0, 0.0, 0.0), k))
  {
    hide StepBar, SaneCosts;
    if k > 0 {
      BarsKeepSound(cfg, feed, k - 1);
      var s := RunBars(cfg, feed, Margined(cfg.initialCapital, 0.0, 0.0, 0.0), k - 1);
      if !s.stopped {
        StepKeepsSound(cfg, feed, k - 1, s);
      }
    }
  }

  // ---- The finished run ----

  /**
   * Every point so far is the account's equity at that bar's close, and an early stop left the state as it was there.
   */
  ghost predicate CurveSoFar(cfg: Config, feed: Feed, acct: Account, k: nat)
    requires feed.Valid() && 0 < feed.Length() && k <= feed.Length()
  {
    var s := RunBars(cfg, feed, acct, k);
    && |s.curve| <= k && (!s.stopped ==> |s.curve| == k) && (k > 0 ==> |s.curve| > 0)
    && s == RunBars(cfg, feed, acct, |s.curve|)
    && forall j :: 0 <= j < |s.curve| ==> s.curve[j] == Equity(RunBars(cfg, feed, acct, j + 1).acct, feed.bars[j].close)
  }

  lemma StepMarks(cfg: Config, feed: Feed, i: nat, s: State)
    requires feed.Valid() && i < feed.Length() && cfg.trackCurve
    ensures var next := StepBar(cfg, feed, i, s);
            var equity := Equity(next.acct, feed.bars[i].close);
            && next.curve == s.curve + [equity] && next.peak == Max(equity, s.peak)
            && next.drawdown == Max(s.drawdown, Fall(next.peak, equity))
  {
    hide BeforeSignal, ActOnSignal, Equity, Fall, StopsEarly;
    CurveIsUntouchedByTrading(cfg, feed, i, s);
  }

  /**
   * The curve is the account's equity at every close, for any configuration and any bars; one point a bar up to an
   * early stop.
   */
  lemma {:induction false} CurveIsEquity(cfg: Config, feed: Feed, acct: Account, k: nat)
    requires feed.Valid() && 0 < feed.Length() && k <= feed.Length() && cfg.trackCurve
    ensures CurveSoFar(cfg, feed, acct, k)
  {
    hide StepBar, Equity;
    if k > 0 {
      CurveIsEquity(cfg, feed, acct, k - 1);
      var s := RunBars(cfg, feed, acct, k - 1);
      if !s.stopped {
        StepMarks(cfg, feed, k - 1, s);
      }
    }
  }

  /** Peak and drawdown are those of the curve started from the initial capital. */
  lemma {:induction false} DrawdownOfCurve(cfg: Config, feed: Feed, acct: Account, k: nat)
    requires feed.Valid() && 0 < feed.Length() && k <= feed.Length() && cfg.trackCurve
    ensures var s := RunBars(cfg, feed, acct, k);
            && s.peak == Peak([cfg.initialCapital] + s.curve)
            && s.drawdown == MaxDrawdown([cfg.initialCapital] + s.curve)
  {
    hide StepBar, Equity, Fall;
    var capital := [cfg.initialCapital];
    if k == 0 {
      NoFallAtPoint(cfg.initialCapital);
      assert capital + [] == capital && capital[..0] == [];
    } else {
      DrawdownOfCurve(cfg, feed, acct, k - 1);
      var s := RunBars(cfg, feed, acct, k - 1);
      if !s.stopped {
        StepMarks(cfg, feed, k - 1, s);
        var curve := StepBar(cfg, feed, k - 1, s).curve;
        assert (capital + curve)[..|capital + curve| - 1] == capital + s.curve;
      }
    }
  }

  lemma CurveIsUntouchedByTrading(cfg: Config, feed: Feed, i: nat, s: State)
    requires feed.Valid() && i < feed.Length()
    ensures var before := BeforeSignal(cfg, feed.bars[i], feed.AverageVolume(), s);
            var acted := ActOnSignal(cfg, feed, i, feed.AverageVolume(), before);
            acted.curve == s.curve && acted.peak == s.peak && acted.drawdown == s.drawdown
  {
    hide CloseFrom, OpenFrom, TierFee, FundingCost, ExitBase, IsLiquidated, LiquidationPrice, LiquidationPenalty,
      Latency, Sum;
    TradesKeepCurve(cfg);
    LiquidationKeepsCurve(cfg, feed.bars[i], feed.AverageVolume(),
                          ChargeFunding(cfg, feed.bars[i], DecayTiers(cfg, feed.bars[i], s)));
  }

  lemma LiquidationKeepsCurve(cfg: Config, bar: Bar, avgVolume: real, s: State)
    ensures var r := LiquidateIfCalled(cfg, bar, avgVolume, s);
            r.curve == s.curve && r.peak == s.peak && r.drawdown == s.drawdown
  {}

  lemma TradesKeepCurve(cfg: Config)
    ensures forall s, base, bar, avgVolume ::
              var r := CloseFrom(cfg, s, base, bar, avgVolume);
              r.curve == s.curve && r.peak == s.peak && r.drawdown == s.drawdown
    ensures forall s, isLong, base, bar, avgVolume, sizePct ::
              var r := OpenFrom(cfg, s, isLong, base, bar, avgVolume, sizePct);
              r.curve == s.curve && r.peak == s.peak && r.drawdown == s.drawdown
  {}

  /**
   * Every finished run, for any settings and any prices, holds no position and has kept the balance, and its curve ends
   * at its cash and margin.
   */
  lemma RunKeepsBalance(cfg: Config, feed: Feed)
    requires feed.Valid() && 0 < feed.Length()
    ensures var s := Simulate(cfg, feed);
            && s.acct.quantity == 0.0 && Balanced(cfg.initialCapital, s)
            && (cfg.trackCurve ==>
                  1 <= |s.curve| <= feed.Length() && s.curve[|s.curve| - 1] == s.acct.cash + s.acct.margin)
  {
    hide RunBars, CloseFrom, Balanced;
    var acct := Margined(cfg.initialCapital, 0.0, 0.0, 0.0);
    var s := RunBars(cfg, feed, acct, feed.Length());
    BarsKeepBalance(cfg, feed, feed.Length());
    BalancedIsMargined(cfg, s);
    if cfg.trackCurve {
      CurveIsEquity(cfg, feed, acct, feed.Length());
    }
    var last := feed.bars[feed.Length() - 1];
    CloseFromKeepsBalance(cfg, s, last.close, last, feed.AverageVolume());
    CloseFromKeepsCurve(cfg, s, last.close, last, feed.AverageVolume());
    BalanceIgnoresCurve(cfg, CloseFrom(cfg, s, last.close, last, feed.AverageVolume()));
  }

  lemma BalancedIsMargined(cfg: Config, s: State)
    requires Balanced(cfg.initialCapital, s)
    ensures s.acct.Margined?
  {}

  lemma BalanceIgnoresCurve(cfg: Config, s: State)
    requires Balanced(cfg.initialCapital, s)
    ensures forall curve :: Balanced(cfg.initialCapital, s.(curve := curve))
  {}

  /**
   * On sane settings and bars nothing stays posted either: total profit is explained by the trades, the entry
   * commissions and the funding alone, and the curve ends at the final cash.
   */
  lemma RunBalances(cfg: Config, feed: Feed)
    requires Sane(cfg, feed)
    ensures var s := Simulate(cfg, feed);
            && s.acct == Margined(s.acct.cash, 0.0, 0.0, 0.0)
            && s.acct.cash - cfg.initialCapital == Sum(s.stats.pnls) - s.stats.entryCommission - s.stats.funding
            && Tallied(s.stats)
            && (cfg.trackCurve ==> 1 <= |s.curve| <= feed.Length() && s.curve[|s.curve| - 1] == s.acct.cash)
  {
    hide RunBars, CloseFrom, SaneCosts, Sum, Tallied, InitialMargin, Value;
    RunKeepsBalance(cfg, feed);
    var s := RunBars(cfg, feed, Margined(cfg.initialCapital, 0.0, 0.0, 0.0), feed.Length());
    BarsKeepSound(cfg, feed, feed.Length());
    var last := feed.bars[feed.Length() - 1];
    CloseKeepsSound(cfg, s, last.close, last, feed.AverageVolume());
  }

  lemma CloseFromKeepsCurve(cfg: Config, s: State, base: real, bar: Bar, avgVolume: real)
    ensures CloseFrom(cfg, s, base, bar, avgVolume).curve == s.curve
    ensures CloseFrom(cfg, s, base, bar, avgVolume).stats.liquidations == s.stats.liquidations
  {}

  // ---- Leverage 1 refines the spot ledger ----

  lemma CloseAlike(cfg: Config, s: State, base: real, bar: Bar, avgVolume: real)
    requires Sound(cfg, s) && cfg.leverage <= 1.0
    ensures CloseFrom(cfg, s, base, bar, avgVolume).acct.Margined?
    ensures CloseFrom(cfg, SpotState(s), base, bar, avgVolume) == SpotState(CloseFrom(cfg, s, base, bar, avgVolume))
  {
    hide FillCosts, Value, Unrealized, Closed, SpotOf, Balanced, Posted, Costed, Booked;
    SoundIsMargined(cfg, s);
    SpotFields(s.acct);
    var q := FillCosts(cfg, base, s.acct.quantity <= 0.0, bar, avgVolume, Value(Abs(s.acct.quantity), base), false);
    var commission := Value(Value(Abs(s.acct.quantity), q.price), s.stats.rate);
    CostedRate(s.stats, q);
    PostedIsMargined(s.acct, q.price, commission, cfg.leverage);
    SameClosed(s.acct, q.price, commission, cfg.leverage);
  }

  lemma CostedRate(stats: Stats, q: FillQuote)
    ensures Costed(stats, q).rate == stats.rate
  {}

  lemma PostedIsMargined(a: Account, fill: real, commission: real, leverage: real)
    requires Posted(a, leverage)
    ensures a.Margined? && Closed(a, fill, commission).Margined?
  {}

  lemma SpotFields(a: Account)
    requires a.Margined?
    ensures SpotOf(a).quantity == a.quantity && SpotOf(a).entry == a.entry
  {}

  lemma OpenAlike(cfg: Config, s: State, isLong: bool, base: real, bar: Bar, avgVolume: real, sizePct: real)
    requires Sound(cfg, s) && cfg.leverage <= 1.0 && s.acct.quantity == 0.0
    requires SaneCosts(cfg) && SaneBar(bar) && base > 0.0
    ensures OpenFrom(cfg, s, isLong, base, bar, avgVolume, sizePct).acct.Margined?
    ensures OpenFrom(cfg, SpotState(s), isLong, base, bar, avgVolume, sizePct) ==
            SpotState(OpenFrom(cfg, s, isLong, base, bar, avgVolume, sizePct))
  {
    hide FillCosts, LeveragedNotional, Equity, Capped, Opened, SpotOf, Value, SaneCosts, Balanced, Posted;
    OpenedFillIsPositive(cfg, s, isLong, base, bar, avgVolume, sizePct);
    SameEquity(s.acct, base, cfg.leverage);
    var size := LeveragedNotional(Equity(s.acct, base), sizePct, cfg.leverage);
    var q := FillCosts(cfg, base, isLong, bar, avgVolume, size, true);
    var value := Capped(size, bar, cfg.fillFraction, q.price).0;
    if value > 0.0 && bar.volume > 0.0 {
      OpenedIsMargined(s.acct, isLong, value, q.price, Value(value, s.stats.rate), cfg.leverage);
      SameOpened(s.acct, isLong, value, q.price, Value(value, s.stats.rate), cfg.leverage);
    } else {
      PostedIsMargined(s.acct, 0.0, 0.0, cfg.leverage);
    }
  }

  lemma OpenedIsMargined(a: Account, isLong: bool, value: real, fill: real, commission: real, leverage: real)
    requires Posted(a, leverage)
    ensures Opened(a, isLong, value, fill, commission, leverage).Margined?
  {}

  lemma DecayAlike(cfg: Config, bar: Bar, s: State)
    requires s.acct.Margined?
    ensures DecayTiers(cfg, bar, s).acct.Margined?
    ensures DecayTiers(cfg, bar, SpotState(s)) == SpotState(DecayTiers(cfg, bar, s))
  {}

  lemma FundingAlike(cfg: Config, bar: Bar, s: State)
    requires s.acct.Margined?
    ensures ChargeFunding(cfg, bar, s).acct.Margined?
    ensures ChargeFunding(cfg, bar, SpotState(s)) == SpotState(ChargeFunding(cfg, bar, s))
  {}

  lemma BeforeSignalAlike(cfg: Config, bar: Bar, avgVolume: real, s: State)
    requires Sound(cfg, s) && cfg.leverage <= 1.0
    ensures BeforeSignal(cfg, bar, avgVolume, s).acct.Margined?
    ensures BeforeSignal(cfg, bar, avgVolume, SpotState(s)) == SpotState(BeforeSignal(cfg, bar, avgVolume, s))
    ensures BeforeSignal(cfg, bar, avgVolume, s).stats.liquidations == s.stats.liquidations
  {
    hide CloseFrom, DecayTiers, ChargeFunding, LiquidationPrice, LiquidationPenalty, ExitBase, SpotOf, Balanced, Posted;
    DecayKeepsSound(cfg, bar, s);
    SoundIsMargined(cfg, s);
    DecayAlike(cfg, bar, s);
    var decayed := DecayTiers(cfg, bar, s);
    FundingKeepsSound(cfg, bar, decayed);
    FundingAlike(cfg, bar, decayed);
    var funded := ChargeFunding(cfg, bar, decayed);
    CountersUntouched(cfg, bar, s);
    SpotFields(funded.acct);
    match ExitBase(cfg, bar, funded.acct.entry, SideOf(funded.acct.quantity))
    case None =>
    case Some(base) =>
      CloseAlike(cfg, funded, base, bar, avgVolume);
      CloseFromKeepsCurve(cfg, funded, base, bar, avgVolume);
  }

  lemma SoundIsMargined(cfg: Config, s: State)
    requires Sound(cfg, s)
    ensures s.acct.Margined?
  {}

  lemma CountersUntouched(cfg: Config, bar: Bar, s: State)
    ensures ChargeFunding(cfg, bar, DecayTiers(cfg, bar, s)).stats.liquidations == s.stats.liquidations
  {}

  lemma ActAlike(cfg: Config, s: State, signal: int, base: real, bar: Bar, avgVolume: real, sizePct: real)
    requires Sound(cfg, s) && cfg.leverage <= 1.0 && SaneCosts(cfg) && SaneBar(bar) && base > 0.0
    ensures Act(cfg, s, signal, base, bar, avgVolume, sizePct).acct.Margined?
    ensures Act(cfg, SpotState(s), signal, base, bar, avgVolume, sizePct) ==
            SpotState(Act(cfg, s, signal, base, bar, avgVolume, sizePct))
    ensures Act(cfg, s, signal, base, bar, avgVolume, sizePct).stats.liquidations == s.stats.liquidations
  {
    hide CloseFrom, OpenFrom, SpotOf, SaneCosts, Sound;
    SoundIsMargined(cfg, s);
    SpotFields(s.acct);
    CloseKeepsSound(cfg, s, base, bar, avgVolume);
    CloseAlike(cfg, s, base, bar, avgVolume);
    CloseFromKeepsCurve(cfg, s, base, bar, avgVolume);
    var closed := CloseFrom(cfg, s, base, bar, avgVolume);
    if signal == BUY && s.acct.quantity <= 0.0 {
      var flat := if s.acct.quantity < 0.0 then closed else s;
      OpenAlike(cfg, flat, true, base, bar, avgVolume, sizePct);
      OpenKeepsLiquidations(cfg, flat, true, base, bar, avgVolume, sizePct);
    } else if signal == SELL && s.acct.quantity >= 0.0 {
      var flat := if s.acct.quantity > 0.0 then closed else s;
      OpenAlike(cfg, flat, false, base, bar, avgVolume, sizePct);
      OpenKeepsLiquidations(cfg, flat, false, base, bar, avgVolume, sizePct);
    }
  }

  lemma OpenKeepsLiquidations(cfg: Config, s: State, isLong: bool, base: real, bar: Bar, avgVolume: real, sizePct: real)
    ensures OpenFrom(cfg, s, isLong, base, bar, avgVolume, sizePct).stats.liquidations == s.stats.liquidations
  {}

  lemma StepAlike(cfg: Config, feed: Feed, i: nat, s: State)
    requires Sane(cfg, feed) && cfg.leverage <= 1.0 && i < feed.Length() && Sound(cfg, s)
    ensures StepBar(cfg, feed, i, s).acct.Margined?
    ensures StepBar(cfg, feed, i, SpotState(s)) == SpotState(StepBar(cfg, feed, i, s))
    ensures StepBar(cfg, feed, i, s).stats.liquidations == s.stats.liquidations
  {
    hide BeforeSignal, Act, SpotOf, SaneCosts, Sound, Equity, Fall, StopsEarly, Latency;
    SoundIsMargined(cfg, s);
    var bar, avgVolume := feed.bars[i], feed.AverageVolume();
    BeforeSignalKeepsSound(cfg, bar, avgVolume, s);
    BeforeSignalAlike(cfg, bar, avgVolume, s);
    var before := BeforeSignal(cfg, bar, avgVolume, s);
    ActKeepsSound(cfg, before, feed.signals[i], feed.FillBase(i), feed.FillBar(i), avgVolume, feed.sizePct[i]);
    ActAlike(cfg, before, feed.signals[i], feed.FillBase(i), feed.FillBar(i), avgVolume, feed.sizePct[i]);
    var acted := ActOnSignal(cfg, feed, i, avgVolume, before);
    EquityAlike(cfg, acted, before, bar.close);
  }

  lemma EquityAlike(cfg: Config, s: State, before: State, mark: real)
    requires cfg.leverage <= 1.0 && Sound(cfg, before)
    requires Sound(cfg, s) || s.acct == before.acct
    ensures s.acct.Margined? && Equity(SpotOf(s.acct), mark) == Equity(s.acct, mark)
  {}

  lemma {:induction false} BarsAlike(cfg: Config, feed: Feed, k: nat)
    requires Sane(cfg, feed) && cfg.leverage <= 1.0 && k <= feed.Length()
    ensures var s := RunBars(cfg, feed, Margined(cfg.initialCapital, 0.0, 0.0, 0.0), k);
            && s.acct.Margined? && s.stats.liquidations == 0
            && RunBars(cfg, feed, Spot(cfg.initialCapital, 0.0, 0.0), k) == SpotState(s)
  {
    hide StepBar, SaneCosts, Sound;
    if k > 0 {
      BarsAlike(cfg, feed, k - 1);
      BarsKeepSound(cfg, feed, k - 1);
      var s := RunBars(cfg, feed, Margined(cfg.initialCapital, 0.0, 0.0, 0.0), k - 1);
      if !s.stopped {
        StepAlike(cfg, feed, k - 1, s);
      }
    }
  }

  /**
   * At leverage 1 (or below) the margin ledger and the spot ledger are in lockstep after every bar: same curve, sizes,
   * entry prices and statistics, spot cash being cash when long or flat and cash plus twice the margin when short.
   * They finish equal, without a liquidation.
   */
  lemma LeverageOneIsSpot(cfg: Config, feed: Feed)
    requires Sane(cfg, feed) && cfg.leverage <= 1.0
    ensures forall k :: 0 <= k <= feed.Length() ==>
              var s := RunBars(cfg, feed, Margined(cfg.initialCapital, 0.0, 0.0, 0.0), k);
              s.acct.Margined? && RunBars(cfg, feed, Spot(cfg.initialCapital, 0.0, 0.0), k) == SpotState(s)
    ensures var s := Simulate(cfg, feed);
            && s.acct.Margined? && s.stats.liquidations == 0
            && SimulateSpot(cfg, feed) == s.(acct := Spot(s.acct.cash, 0.0, 0.0))
  {
    hide RunBars, CloseFrom, SaneCosts, Sound;
    forall k | 0 <= k <= feed.Length()
      ensures var s := RunBars(cfg, feed, Margined(cfg.initialCapital, 0.0, 0.0, 0.0), k);
              s.acct.Margined? && RunBars(cfg, feed, Spot(cfg.initialCapital, 0.0, 0.0), k) == SpotState(s)
    {
      BarsAlike(cfg, feed, k);
    }
    var n := feed.Length();
    BarsAlike(cfg, feed, n);
    BarsKeepSound(cfg, feed, n);
    RunBalances(cfg, feed);
    var s := RunBars(cfg, feed, Margined(cfg.initialCapital, 0.0, 0.0, 0.0), n);
    var last := feed.bars[n - 1];
    CloseAlike(cfg, s, last.close, last, feed.AverageVolume());
    CloseFromKeepsCurve(cfg, s, last.close, last, feed.AverageVolume());
  }
}
