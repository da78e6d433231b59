/** The candle simulator's mutable run state and its loop, proved against the functions of CandleSim. */
module CandleEngine {
  import opened Reals
  import opened Margin
  import opened CandleLedger
  import opened CandleSim
  import opened Drawdown

  /** The variables `run` threads through its helpers by mutable reference. */
  class Ledger {
    const cfg: Config
    var cash: real
    var quantity: real
    var entry: real
    var margin: real
    var stats: Stats
    var curve: seq<real>
    var peak: real
    var drawdown: real
    var stopped: bool

    ghost function View(): State
      reads this
    {
      State(Margined(cash, quantity, entry, margin), stats, curve, peak, drawdown, stopped)
    }

    constructor (cfg: Config, start: int)
      ensures this.cfg == cfg
      ensures View() == State(Margined(cfg.initialCapital, 0.0, 0.0, 0.0), InitialStats(cfg, start), [],
                              cfg.initialCapital, 0.0, false)
    {
      this.cfg := cfg;
      cash, quantity, entry, margin := cfg.initialCapital, 0.0, 0.0, 0.0;
      stats := InitialStats(cfg, start);
      curve, peak, drawdown, stopped := [], cfg.initialCapital, 0.0, false;
    }

    /** Prices a fill and adds what each realism component cost to the running totals. */
    method ApplyFillCosts(price: real, isBuy: bool, bar: Bar, avgVolume: real, orderValue: real, isEntry: bool)
      returns (fill: real)
      modifies this`stats
      ensures fill == FillCosts(cfg, price, isBuy, bar, avgVolume, orderValue, isEntry).price
      ensures stats == Costed(old(stats), FillCosts(cfg, price, isBuy, bar, avgVolume, orderValue, isEntry))
    {
      hide SlippageBps, ImpactBps, SpreadBps, AdverseBps, ReportedCost, Slipped;
      var bps := SlippageBps(cfg, bar.volume, avgVolume);
      var impact := ImpactBps(cfg, bar, orderValue);
      stats := stats.(impactCost := stats.impactCost + ReportedCost(price, impact, orderValue));
      bps := bps + impact;
      var spread := SpreadBps(cfg, bar, isEntry);
      stats := stats.(spreadCost := stats.spreadCost + ReportedCost(price, spread, orderValue));
      bps := bps + spread;
      var adverse := AdverseBps(cfg, bar, isBuy, isEntry);
      stats := stats.(adverseCost := stats.adverseCost + ReportedCost(price, adverse, orderValue));
      bps := bps + adverse;
      fill := Slipped(price, bps, isBuy);
    }

    /** Credits back the posted margin plus profit and books the trade; the position never closes partially. */
    method ClosePosition(fill: real)
      modifies this
      ensures View() == CloseAtFill(old(View()), fill)
    {
      hide Unrealized, Value;
      var size := Abs(quantity);
      var exitValue := Value(size, fill);
      var commission := Value(exitValue, stats.rate);
      var pnl := Unrealized(quantity, entry, fill) - commission;
      cash := cash + (margin + pnl);
      margin := 0.0;
      stats := stats.(commission := stats.commission + commission, rollingVolume := stats.rollingVolume + exitValue,
                      pnls := stats.pnls + [pnl]);
      if pnl > 0.0 {
        stats := stats.(wins := stats.wins + 1, grossProfit := stats.grossProfit + pnl);
      } else {
        stats := stats.(losses := stats.losses + 1, grossLoss := stats.grossLoss + Abs(pnl));
      }
      quantity, entry := 0.0, 0.0;
    }

    method CloseFromBase(base: real, bar: Bar, avgVolume: real)
      modifies this
      ensures View() == CloseFrom(cfg, old(View()), base, bar, avgVolume)
    {
      hide FillCosts, CloseAtFill, Value;
      var fill := ApplyFillCosts(base, quantity <= 0.0, bar, avgVolume, Value(Abs(quantity), base), false);
      ClosePosition(fill);
    }

    /** Posts margin for a new position and pays its commission. */
    method PostPosition(isLong: bool, value: real, fill: real)
      modifies this
      ensures View() == OpenAtFill(cfg, old(View()), isLong, value, fill)
    {
      hide InitialMargin, Units, Value;
      var commission := Value(value, stats.rate);
      var posted := InitialMargin(value, cfg.leverage);
      cash := cash - (posted + commission);
      margin := margin + posted;
      quantity := if isLong then Units(value, fill) else -Units(value, fill);
      entry := fill;
      stats := stats.(commission := stats.commission + commission,
                      entryCommission := stats.entryCommission + commission,
                      rollingVolume := stats.rollingVolume + value);
    }

    /** Sizes an order on the flat account and caps it by the bar's volume. */
    method OpenPosition(isLong: bool, base: real, bar: Bar, avgVolume: real, sizePct: real)
      modifies this
      ensures View() == OpenFrom(cfg, old(View()), isLong, base, bar, avgVolume, sizePct)
    {
      hide FillCosts, LeveragedNotional, Unrealized, OpenAtFill, Absorbable;
      var equity := cash + margin + Unrealized(quantity, entry, base);
      var size := LeveragedNotional(equity, sizePct, cfg.leverage);
      var fill := ApplyFillCosts(base, isLong, bar, avgVolume, size, true);
      var most := Absorbable(bar, cfg.fillFraction, fill);
      var value := size;
      if most > 0.0 && size > most {
        value := most;
        stats := stats.(skips := stats.skips + 1);
      } else if bar.volume <= 0.0 {
        stats := stats.(skips := stats.skips + 1);
      }
      if value > 0.0 && bar.volume > 0.0 {
        PostPosition(isLong, value, fill);
      }
    }

    method ChargeFundingDue(bar: Bar)
      modifies this
      ensures View() == ChargeFunding(cfg, bar, old(View()))
    {
      hide FundingCost;
      var periods := FundingPeriods(cfg, bar, stats);
      if quantity != 0.0 && periods != 0 {
        var cost := FundingCost(cfg, quantity, bar.close, periods);
        cash := cash - cost;
        stats := stats.(funding := stats.funding + cost,
                        lastFunding := stats.lastFunding + periods * cfg.fundingIntervalMs);
      }
    }

    method CheckLiquidation(bar: Bar, avgVolume: real)
      modifies this
      ensures View() == LiquidateIfCalled(cfg, bar, avgVolume, old(View()))
    {
      hide CloseFrom, Trigger;
      if quantity != 0.0 && cfg.leverage > 1.0 {
        var side := if quantity > 0.0 then Long else Short;
        var extreme := if side == Long then bar.low else bar.high;
        if IsLiquidated(extreme, entry, side, cfg.leverage, cfg.maintenance) {
          var trigger := LiquidationPrice(entry, side, cfg.leverage, cfg.maintenance);
          CloseFromBase(LiquidationPenalty(trigger.price, side, cfg.penaltyBps), bar, avgVolume);
          stats := stats.(liquidations := stats.liquidations + 1);
        }
      }
    }

    /** Stop loss and take profit on the current bar, arbitrated before any cost is charged. */
    method CheckExits(bar: Bar, avgVolume: real)
      modifies this
      ensures View() == ExitIfTriggered(cfg, bar, avgVolume, old(View()))
    {
      hide CloseFrom, StopBase, TargetBase;
      if quantity != 0.0 {
        var side := if quantity > 0.0 then Long else Short;
        var stop, target := None, None;
        if cfg.stopLoss.Some? {
          stop := StopBase(cfg.stopLoss.value, bar, entry, side);
        }
        if cfg.takeProfit.Some? {
          target := TargetBase(cfg.takeProfit.value, bar, entry, side);
        }
        if stop.Some? && target.Some? && cfg.realism.intrabarPath {
          var upFirst := bar.high - bar.open < bar.open - bar.low;
          if upFirst == (side == Long) {
            stop := None;
          } else {
            target := None;
          }
        }
        if stop.Some? {
          CloseFromBase(stop.value, bar, avgVolume);
        } else if target.Some? {
          CloseFromBase(target.value, bar, avgVolume);
        }
      }
    }

    method ProcessSignal(signal: int, base: real, bar: Bar, avgVolume: real, sizePct: real)
      modifies this
      ensures View() == Act(cfg, old(View()), signal, base, bar, avgVolume, sizePct)
    {
      hide CloseFrom, OpenFrom;
      if signal == BUY && quantity <= 0.0 {
        if quantity < 0.0 {
          CloseFromBase(base, bar, avgVolume);
        }
        OpenPosition(true, base, bar, avgVolume, sizePct);
      } else if signal == SELL && quantity >= 0.0 {
        if quantity > 0.0 {
          CloseFromBase(base, bar, avgVolume);
        }
        OpenPosition(false, base, bar, avgVolume, sizePct);
      } else if signal == EXIT && quantity != 0.0 {
        CloseFromBase(base, bar, avgVolume);
      }
    }

    /** Records equity, peak, drawdown and the early-stop decision. */
    method RecordEquity(bar: Bar, i: nat)
      modifies this`curve, this`peak, this`drawdown, this`stopped
      ensures View() == MarkBar(cfg, bar, i, old(View()))
    {
      hide Unrealized, Fall, StopsEarly;
      var equity := cash + margin + Unrealized(quantity, entry, bar.close);
      if cfg.trackCurve {
        curve := curve + [equity];
      }
      if equity > peak {
        peak := equity;
      }
      var fall := Fall(peak, equity);
      if fall > drawdown {
        drawdown := fall;
      }
      stopped := StopsEarly(cfg, i, equity);
    }

    method RunBar(feed: Feed, i: nat, avgVolume: real)
      requires feed.Valid() && i < feed.Length() && avgVolume == feed.AverageVolume()
      modifies this
      ensures View() == StepBar(cfg, feed, i, old(View()))
    {
      hide DecayedStats, ChargeFunding, LiquidateIfCalled, ExitIfTriggered, Act, MarkBar, IsStale, Sum;
      var bar := feed.bars[i];
      stats := DecayedStats(cfg, bar, stats);
      ChargeFundingDue(bar);
      CheckLiquidation(bar, avgVolume);
      CheckExits(bar, avgVolume);
      if IsStale(cfg, feed, i) {
        stats := stats.(latencyRejected := stats.latencyRejected + 1);
      } else {
        ProcessSignal(feed.signals[i], feed.FillBase(i), feed.FillBar(i), avgVolume, feed.sizePct[i]);
      }
      RecordEquity(bar, i);
    }

    /** Leaves a position that is still open at the last close of the feed. */
    method CloseOut(feed: Feed, avgVolume: real)
      requires 0 < feed.Length() && avgVolume == feed.AverageVolume()
      modifies this
      ensures View() == Finish(cfg, feed, old(View()))
    {
      hide CloseFrom, Sum;
      if quantity != 0.0 {
        var last := feed.bars[feed.Length() - 1];
        CloseFromBase(last.close, last, avgVolume);
        if cfg.trackCurve && |curve| > 0 {
          curve := curve[..|curve| - 1] + [cash];
        }
      }
    }
  }

  datatype Outcome = Outcome(equityCurve: seq<real>, totalPnl: real, trades: nat, winRate: real, maxDrawdown: real,
                             profitFactor: real, stats: Stats, earlyTerminated: bool)

  function ProfitFactor(stats: Stats): real {
    if stats.grossLoss > 0.0 then stats.grossProfit / stats.grossLoss
    else if stats.grossProfit > 0.0 then 10.0 else 0.0
  }

  function WinRate(stats: Stats): real {
    if stats.wins + stats.losses > 0 then stats.wins as real / (stats.wins + stats.losses) as real else 0.0
  }

  /** What a finished run reports. */
  function Report(cfg: Config, s: State): Outcome {
    Outcome(s.curve, s.acct.cash - cfg.initialCapital, s.stats.wins + s.stats.losses, WinRate(s.stats),
            s.drawdown * cfg.initialCapital, ProfitFactor(s.stats), s.stats, s.stopped)
  }

  function EmptyReport(cfg: Config): Outcome {
    Outcome([cfg.initialCapital], 0.0, 0, 0.0, 0.0, 0.0, InitialStats(cfg, 0), false)
  }

  method Run(cfg: Config, feed: Feed) returns (r: Outcome)
    requires feed.Valid()
    ensures r == if feed.Length() == 0 then EmptyReport(cfg) else Report(cfg, Simulate(cfg, feed))
  {
    hide StepBar, Finish, Sum;
    var n := feed.Length();
    if n == 0 {
      return EmptyReport(cfg);
    }
    var ledger := new Ledger(cfg, feed.bars[0].timestamp);
    var avgVolume := feed.AverageVolume();
    ghost var flat := Margined(cfg.initialCapital, 0.0, 0.0, 0.0);
    var i := 0;
    while i < n && !ledger.stopped
      invariant 0 <= i <= n
      invariant ledger.cfg == cfg && fresh(ledger)
      invariant ledger.View() == RunBars(cfg, feed, flat, i)
    {
      ledger.RunBar(feed, i, avgVolume);
      i := i + 1;
    }
    StoppedStaysStopped(cfg, feed, flat, i, n);
    ledger.CloseOut(feed, avgVolume);
    var stats := ledger.stats;
    return Outcome(ledger.curve, ledger.cash - cfg.initialCapital, stats.wins + stats.losses, WinRate(stats),
                   ledger.drawdown * cfg.initialCapital, ProfitFactor(stats), stats, ledger.stopped);
  }

  lemma {:induction false} StoppedStaysStopped(cfg: Config, feed: Feed, acct: Account, i: nat, n: nat)
    requires feed.Valid() && 0 < feed.Length() && i <= n <= feed.Length()
    requires RunBars(cfg, feed, acct, i).stopped || i == n
    ensures RunBars(cfg, feed, acct, n) == RunBars(cfg, feed, acct, i)
  {
    hide StepBar;
    if i < n {
      StoppedStaysStopped(cfg, feed, acct, i, n - 1);
    }
  }

  /**
   * The reported ratios recover what they are taken of: the profit factor times the gross loss is the gross profit, ten
   * stands for profits without a loss, and the win rate times the trades is the wins.
   */
  lemma RatiosRecover(stats: Stats)
    ensures if stats.grossLoss > 0.0 then Times(ProfitFactor(stats), stats.grossLoss) == stats.grossProfit
            else ProfitFactor(stats) == if stats.grossProfit > 0.0 then 10.0 else 0.0
    ensures Times(WinRate(stats), (stats.wins + stats.losses) as real) == stats.wins as real
    ensures 0.0 <= WinRate(stats) <= 1.0
  {
    var trades := (stats.wins + stats.losses) as real;
    if stats.wins + stats.losses > 0 {
      QuotientInUnit(stats.wins as real, trades);
    }
    if stats.grossLoss > 0.0 {
      QuotientTimesDivisor(stats.grossProfit, stats.grossLoss);
    }
  }
}
