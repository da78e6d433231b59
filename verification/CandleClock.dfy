/** When the candle simulator acts: fills, funding, latency and early stops (backtest/src/candle_sim.rs). */
module CandleClock {
  import opened Reals
  import opened Margin
  import opened CandleLedger
  import opened Drawdown
  import opened CandleSim
  import opened CandleRules
  import opened CandleSides

  // ---- Where orders fill ----

  /**
   * Without costs an entry signalled on a bar is made at the open of the next one; on the last bar, at its own close. A
   * position opened so costs nothing yet.
   */
  lemma EntryIsAtNextOpen(cfg: Config, feed: Feed, i: nat, s: State)
    requires Sane(cfg, feed) && i < feed.Length() && s.acct.Margined? && !IsStale(cfg, feed, i)
    requires var before := BeforeSignal(cfg, feed.bars[i], feed.AverageVolume(), s);
             before.acct.quantity == 0.0 && Costless(cfg, before.stats.rate)
    requires feed.signals[i] == BUY || feed.signals[i] == SELL
    requires StepBar(cfg, feed, i, s).acct.quantity != 0.0
    ensures StepBar(cfg, feed, i, s).acct.entry ==
            if i + 1 < feed.Length() then feed.bars[i + 1].open else feed.bars[i].close
  {
    hide BeforeSignal, SaneCosts, Equity, StopsEarly, IsStale, Wanted, Costless, CloseFrom, LeveragedNotional;
    var bar, avgVolume := feed.bars[i], feed.AverageVolume();
    var before, base, fillBar := BeforeSignal(cfg, bar, avgVolume, s), feed.FillBase(i), feed.FillBar(i);
    BeforeSignalOnlyCloses(cfg, bar, avgVolume, s);
    OpenTakesSide(cfg, before, feed.signals[i] == BUY, base, fillBar, avgVolume, feed.sizePct[i]);
    hide OpenFrom;
    if Wanted(cfg, before, base, feed.sizePct[i]) > 0.0 && fillBar.volume > 0.0 {
      CostlessFill(cfg, before, feed.signals[i] == BUY, base, fillBar, avgVolume, feed.sizePct[i]);
    }
  }

  /** Without costs, closing what is left at the end changes nothing: the run ends with the equity of its last close. */
  lemma CostlessCloseOutKeepsEquity(cfg: Config, feed: Feed, s: State)
    requires 0 < feed.Length() && s.acct.Margined? && Costless(cfg, s.stats.rate) && s.acct.quantity != 0.0
    ensures Finish(cfg, feed, s).acct.cash == Equity(s.acct, feed.bars[feed.Length() - 1].close)
  {
    var last, avgVolume := feed.bars[feed.Length() - 1], feed.AverageVolume();
    CostlessExit(cfg, s, last.close, last, avgVolume);
    hide CloseFrom, Unrealized, Costless;
  }

  lemma CostlessExit(cfg: Config, s: State, base: real, bar: Bar, avgVolume: real)
    requires s.acct.Margined? && Costless(cfg, s.stats.rate)
    ensures CloseFrom(cfg, s, base, bar, avgVolume).acct.cash == Equity(s.acct, base)
  {
    hide ReportedCost, Unrealized;
    var q := FillCosts(cfg, base, s.acct.quantity <= 0.0, bar, avgVolume, Value(Abs(s.acct.quantity), base), false);
    assert q.price == base;
    assert Value(Value(Abs(s.acct.quantity), base), 0.0) == 0.0;
  }

  // ---- Average volume ----

  lemma {:induction false} SumOfEqual(xs: seq<real>, x: real)
    requires forall i :: 0 <= i < |xs| ==> xs[i] == x
    ensures Sum(xs) == Times(|xs| as real, x)
  {
    if xs != [] {
      SumOfEqual(xs[..|xs| - 1], x);
    }
  }

  /**
   * The average volume spreads the volume of all bars over the simulated ones: over fewer signals than bars it is
   * higher.
   */
  lemma AverageOfEqualVolumes(feed: Feed, volume: real)
    requires feed.Length() > 0 && forall i :: 0 <= i < |feed.bars| ==> feed.bars[i].volume == volume
    ensures Times(feed.Length() as real, feed.AverageVolume()) == Times(|feed.bars| as real, volume)
  {
    var volumes := seq(|feed.bars|, i requires 0 <= i < |feed.bars| => feed.bars[i].volume);
    SumOfEqual(volumes, volume);
    hide Sum;
    QuotientTimesDivisor(Sum(volumes), feed.Length() as real);
    TimesCommutes(feed.AverageVolume(), feed.Length() as real);
  }

  lemma TimesCommutes(x: real, y: real)
    ensures Times(y, x) == x * y
  {}

  // ---- Funding ----

  predicate FundingIsOn(cfg: Config) {
    cfg.fundingRate8h > 0.0 && cfg.fundingIntervalMs > 0
  }

  /**
   * An open position pays for whole intervals since the last charge and the clock moves by just those; a flat account
   * pays nothing and leaves the clock where it was, however long it stays flat.
   */
  lemma FundingIsUpToDate(cfg: Config, bar: Bar, s: State)
    requires FundingIsOn(cfg) && bar.timestamp >= s.stats.lastFunding && s.acct.Margined?
    ensures var after := ChargeFunding(cfg, bar, s);
            var paid := after.stats.funding - s.stats.funding;
            && after.acct == s.acct.(cash := s.acct.cash - paid)
            && (s.acct.quantity == 0.0 ==> after == s)
            && (s.acct.quantity != 0.0 ==>
                  && 0 <= bar.timestamp - after.stats.lastFunding < cfg.fundingIntervalMs
                  && (after.stats.lastFunding - s.stats.lastFunding) % cfg.fundingIntervalMs == 0
                  && Times(paid, cfg.fundingIntervalMs as real)
                     == Times(Times(Times(Abs(s.acct.quantity), bar.close), cfg.fundingRate8h),
                              (after.stats.lastFunding - s.stats.lastFunding) as real))
  {
    var elapsed, interval := bar.timestamp - s.stats.lastFunding, cfg.fundingIntervalMs;
    if s.acct.quantity != 0.0 {
      var periods := elapsed / interval;
      assert elapsed == periods * interval + elapsed % interval;
      WholePeriods(periods, interval);
      PeriodsAsReal(Times(Times(Abs(s.acct.quantity), bar.close), cfg.fundingRate8h), periods, interval);
      if elapsed < interval {
        assert periods == 0;
      }
    }
  }

  lemma WholePeriods(periods: int, interval: int)
    requires interval > 0
    ensures periods * interval % interval == 0
  {
    MultipleHasNoRemainder(periods, interval);
  }

  lemma MultipleHasNoRemainder(k: int, n: int)
    requires n > 0
    ensures (k * n) % n == 0
  {
    var q, r := k * n / n, k * n % n;
    assert k * n == q * n + r;
    RemainderOfMultiple(k - q, n, r);
  }

  lemma RemainderOfMultiple(d: int, n: int, r: int)
    requires n > 0 && 0 <= r < n && d * n == r
    ensures r == 0
  {}

  lemma PeriodsAsReal(cost: real, periods: int, interval: int)
    ensures Times(cost * periods as real, interval as real) == Times(cost, (periods * interval) as real)
  {
    assert (periods * interval) as real == periods as real * interval as real;
    Reassociate(cost, periods as real, interval as real);
  }

  lemma Reassociate(x: real, y: real, z: real)
    ensures Times(x * y, z) == Times(x, y * z)
  {}

  /**
   * The clock runs only while something is held: a position opened after idle intervals pays for them all on its first
   * bar, ten of them here, although it was held for none.
   */
  lemma IdleTimeIsCharged(cfg: Config)
    requires FundingIsOn(cfg) && cfg.fundingIntervalMs == 1000
    ensures var idle := State(Margined(100.0, 0.0, 0.0, 0.0), InitialStats(cfg, 0), [], 100.0, 0.0, false);
            var held := idle.(acct := Margined(90.0, 1.0, 10.0, 10.0));
            var bar := Bar(10.0, 10.0, 10.0, 10.0, 1.0, 10000);
            && ChargeFunding(cfg, bar, idle) == idle
            && ChargeFunding(cfg, bar, held).stats.funding == 100.0 * cfg.fundingRate8h
  {
    var stats, bar := InitialStats(cfg, 0), Bar(10.0, 10.0, 10.0, 10.0, 1.0, 10000);
    assert FundingPeriods(cfg, bar, stats) == 10;
    hide FundingPeriods;
    assert FundingCost(cfg, 1.0, 10.0, 10) == 100.0 * cfg.fundingRate8h;
    hide FundingCost;
  }

  // ---- Latency ----

  /** A drawn latency stays within its spread of the mean, and is never negative. */
  lemma LatencyIsBounded(realism: Realism, i: nat)
    requires realism.latencyStd >= 0.0
    ensures Max(realism.latencyMean - realism.latencyStd, 0.0) <= Latency(realism, i)
    ensures Latency(realism, i) <= Max(realism.latencyMean + realism.latencyStd, 0.0)
  {
    var share := ((i * 7919) % 1000) as real / 500.0 - 1.0;
    ShareOfSpread(share, realism.latencyStd);
    var jitter := share * realism.latencyStd;
    assert Latency(realism, i) == Max(realism.latencyMean + jitter, 0.0);
    assert jitter <= realism.latencyStd;
    hide Latency;
  }

  lemma ShareOfSpread(share: real, spread: real)
    requires -1.0 <= share <= 1.0 && spread >= 0.0
    ensures -spread <= share * spread <= spread
  {}

  /**
   * A signal is dropped for certain when even the quickest draw outlasts the bar, and never when the slowest fits in
   * it.
   */
  lemma StaleByBarLength(cfg: Config, feed: Feed, i: nat)
    requires 0 < i < feed.Length() && cfg.realism.latencyStd >= 0.0 && cfg.realism.latencyMean > 0.0
    requires feed.signals[i] != HOLD
    ensures var length := (feed.bars[i].timestamp - feed.bars[i - 1].timestamp) as real;
            && (cfg.realism.latencyMean - cfg.realism.latencyStd > length && length >= 0.0 ==> IsStale(cfg, feed, i))
            && (cfg.realism.latencyMean + cfg.realism.latencyStd <= length ==> !IsStale(cfg, feed, i))
  {
    LatencyIsBounded(cfg.realism, i);
    hide Latency;
  }

  // ---- Early stops ----

  /** The equity below which a run is given up. */
  function Floor(cfg: Config): real
    requires cfg.earlyTerm.Some?
  {
    cfg.initialCapital * (1.0 - cfg.earlyTerm.value.maxLossPct)
  }

  /** A bar past the first on which the loss limit is looked at. */
  predicate IsCheck(cfg: Config, i: nat) {
    cfg.earlyTerm.Some? && i > 0 && cfg.earlyTerm.value.checkInterval > 0 && i % cfg.earlyTerm.value.checkInterval == 0
  }

  /**
   * A run is given up at the first check at which its equity is below the limit, and at no other bar: the curve's
   * points at earlier checks are all at or above it.
   */
  lemma {:induction false} StopsAtFirstBreach(cfg: Config, feed: Feed, acct: Account, k: nat)
    requires feed.Valid() && 0 < feed.Length() && k <= feed.Length() && cfg.trackCurve
    ensures var s := RunBars(cfg, feed, acct, k);
            && (forall j :: 0 <= j < |s.curve| - 1 && IsCheck(cfg, j) ==> s.curve[j] >= Floor(cfg))
            && (k > 0 ==> |s.curve| > 0)
            && (k > 0 ==> (s.stopped <==> IsCheck(cfg, |s.curve| - 1) && s.curve[|s.curve| - 1] < Floor(cfg)))
  {
    hide StepBar, Equity;
    if k > 0 {
      StopsAtFirstBreach(cfg, feed, acct, k - 1);
      CurveIsEquity(cfg, feed, acct, k - 1);
      var s := RunBars(cfg, feed, acct, k - 1);
      if !s.stopped {
        StepMarks(cfg, feed, k - 1, s);
        StepStops(cfg, feed, k - 1, s);
      }
    }
  }

  lemma StepStops(cfg: Config, feed: Feed, i: nat, s: State)
    requires feed.Valid() && i < feed.Length()
    ensures var next := StepBar(cfg, feed, i, s);
            next.stopped <==> IsCheck(cfg, i) && Equity(next.acct, feed.bars[i].close) < Floor(cfg)
  {
    hide BeforeSignal, ActOnSignal, Equity;
  }
}
