/** Which side each signal puts the candle account on, and what that side earns (backtest/src/candle_sim.rs). */
module CandleSides {
  import opened Reals
  import opened Margin
  import opened CandleLedger
  import opened CandleSim
  import opened CandleRules

  /** The state a new position is opened from: whatever was held on the other side is closed first. */
  function Flattened(cfg: Config, s: State, base: real, bar: Bar, avgVolume: real): State {
    if s.acct.quantity == 0.0 then s else CloseFrom(cfg, s, base, bar, avgVolume)
  }

  /** The value an entry asks for. */
  function Wanted(cfg: Config, flat: State, base: real, sizePct: real): real {
    LeveragedNotional(Equity(flat.acct, base), sizePct, cfg.leverage)
  }

  // ---- One entry ----

  lemma QuotientSign(x: real, y: real)
    requires x > 0.0 && y > 0.0
    ensures Units(x, y) > 0.0
  {
    QuotientTimesDivisor(x, y);
    CancelStrictly(y, 0.0, x / y);
  }

  lemma CappedSign(size: real, bar: Bar, fraction: real, fill: real)
    ensures Capped(size, bar, fraction, fill).0 > 0.0 <==> size > 0.0
  {}

  /**
   * An entry from a flat account is long when asked to be long and short when asked to be short, at a price no better
   * than its base; and it happens exactly when something is wanted and the bar has volume.
   */
  lemma OpenTakesSide(
    cfg: Config, s: State, isLong: bool, base: real, bar: Bar, avgVolume: real, sizePct: real)
    requires SaneCosts(cfg) && SaneBar(bar) && base > 0.0 && s.acct.Margined? && s.acct.quantity == 0.0
    ensures var acct := OpenFrom(cfg, s, isLong, base, bar, avgVolume, sizePct).acct;
            var traded := Wanted(cfg, s, base, sizePct) > 0.0 && bar.volume > 0.0;
            && acct.Margined?
            && if traded then
                 && (if isLong then acct.quantity > 0.0 else acct.quantity < 0.0)
                 && acct.entry > 0.0 && Costlier(isLong, acct.entry, base)
               else acct == s.acct
  {
    hide FillCosts, LeveragedNotional, Equity, Capped, SaneCosts, SaneBar, InitialMargin, Units, Value;
    var size := Wanted(cfg, s, base, sizePct);
    var q := FillCosts(cfg, base, isLong, bar, avgVolume, size, true);
    var value := Capped(size, bar, cfg.fillFraction, q.price).0;
    CappedSign(size, bar, cfg.fillFraction, q.price);
    OpenedFillIsPositive(cfg, s, isLong, base, bar, avgVolume, sizePct);
    if value > 0.0 && bar.volume > 0.0 {
      QuotientSign(value, q.price);
      CostsGrowWithSize(cfg, base, isLong, bar, avgVolume, size, size, true);
    }
  }

  // ---- One signal ----

  /** The account a signal asks for, given what is held before it. */
  ghost predicate OnItsSide(
    cfg: Config, s: State, after: Account, signal: int, base: real, bar: Bar, avgVolume: real, sizePct: real)
  {
    var flat := Flattened(cfg, s, base, bar, avgVolume);
    var traded := Wanted(cfg, flat, base, sizePct) > 0.0 && bar.volume > 0.0;
    && (signal == BUY ==>
          if s.acct.quantity > 0.0 then after == s.acct
          else if traded then after.quantity > 0.0 && after.entry >= base else after == flat.acct)
    && (signal == SELL ==>
          if s.acct.quantity < 0.0 then after == s.acct
          else if traded then after.quantity < 0.0 && 0.0 < after.entry <= base else after == flat.acct)
    && (signal == EXIT ==> after == flat.acct)
    && (signal != BUY && signal != SELL && signal != EXIT ==> after == s.acct)
  }

  lemma FlattenedIsFlat(cfg: Config, s: State, base: real, bar: Bar, avgVolume: real)
    requires s.acct.Margined?
    ensures var flat := Flattened(cfg, s, base, bar, avgVolume).acct;
            flat.Margined? && flat.quantity == 0.0
  {
    hide FillCosts, Unrealized, Value;
  }

  /** A signal puts the account on its side, or leaves it flat where there is nothing to trade. */
  lemma SignalTakesSide(cfg: Config, s: State, signal: int, base: real, bar: Bar, avgVolume: real, sizePct: real)
    requires SaneCosts(cfg) && SaneBar(bar) && base > 0.0 && s.acct.Margined?
    ensures var after := Act(cfg, s, signal, base, bar, avgVolume, sizePct).acct;
            OnItsSide(cfg, s, after, signal, base, bar, avgVolume, sizePct)
  {
    hide CloseFrom, OpenFrom, SaneCosts, SaneBar, Wanted;
    var flat := Flattened(cfg, s, base, bar, avgVolume);
    FlattenedIsFlat(cfg, s, base, bar, avgVolume);
    OpenTakesSide(cfg, flat, true, base, bar, avgVolume, sizePct);
    OpenTakesSide(cfg, flat, false, base, bar, avgVolume, sizePct);
  }

  // ---- One bar ----

  lemma CloseFlattens(cfg: Config, s: State, base: real, bar: Bar, avgVolume: real)
    requires s.acct.Margined?
    ensures var acct := CloseFrom(cfg, s, base, bar, avgVolume).acct; acct.Margined? && acct.quantity == 0.0
  {
    hide FillCosts, Unrealized, Value;
  }

  /** Everything before the signal only closes the position, or leaves it. */
  predicate OnlyClosed(was: Account, now: Account) {
    now.Margined? && (now.quantity == 0.0 || (now.quantity == was.quantity && now.entry == was.entry))
  }

  lemma FundedOnlyCloses(cfg: Config, bar: Bar, s: State)
    requires s.acct.Margined?
    ensures OnlyClosed(s.acct, ChargeFunding(cfg, bar, DecayTiers(cfg, bar, s)).acct)
  {
    hide DecayedStats, FundingCost, FundingPeriods;
  }

  lemma LiquidatedOnlyCloses(cfg: Config, bar: Bar, avgVolume: real, s: State)
    requires s.acct.Margined?
    ensures OnlyClosed(s.acct, LiquidateIfCalled(cfg, bar, avgVolume, s).acct)
  {
    hide CloseFrom, LiquidationPenalty;
    var side := SideOf(s.acct.quantity);
    if IsLiquidated(if side == Long then bar.low else bar.high, s.acct.entry, side, cfg.leverage, cfg.maintenance) {
      var trigger := LiquidationPrice(s.acct.entry, side, cfg.leverage, cfg.maintenance).price;
      CloseFlattens(cfg, s, LiquidationPenalty(trigger, side, cfg.penaltyBps), bar, avgVolume);
    }
  }

  lemma BeforeSignalOnlyCloses(cfg: Config, bar: Bar, avgVolume: real, s: State)
    requires s.acct.Margined?
    ensures OnlyClosed(s.acct, BeforeSignal(cfg, bar, avgVolume, s).acct)
  {
    hide CloseFrom, ExitBase, ChargeFunding, DecayTiers, LiquidateIfCalled;
    var funded := ChargeFunding(cfg, bar, DecayTiers(cfg, bar, s));
    FundedOnlyCloses(cfg, bar, s);
    LiquidatedOnlyCloses(cfg, bar, avgVolume, funded);
    var left := LiquidateIfCalled(cfg, bar, avgVolume, funded);
    match ExitBase(cfg, bar, left.acct.entry, SideOf(left.acct.quantity))
    case None =>
    case Some(base) => CloseFlattens(cfg, left, base, bar, avgVolume);
  }

  /** After a bar the account is on the side its signal asks for; a stale signal changes nothing. */
  lemma BarTakesSide(cfg: Config, feed: Feed, i: nat, s: State)
    requires Sane(cfg, feed) && i < feed.Length() && s.acct.Margined?
    ensures var before := BeforeSignal(cfg, feed.bars[i], feed.AverageVolume(), s);
            var after := StepBar(cfg, feed, i, s).acct;
            if IsStale(cfg, feed, i) then after == before.acct
            else OnItsSide(cfg, before, after, feed.signals[i], feed.FillBase(i), feed.FillBar(i), feed.AverageVolume(),
                           feed.sizePct[i])
  {
    hide BeforeSignal, Act, OnItsSide, SaneCosts, Equity, StopsEarly, IsStale;
    BeforeSignalOnlyCloses(cfg, feed.bars[i], feed.AverageVolume(), s);
    SignalTakesSide(cfg, BeforeSignal(cfg, feed.bars[i], feed.AverageVolume(), s), feed.signals[i], feed.FillBase(i),
                    feed.FillBar(i), feed.AverageVolume(), feed.sizePct[i]);
  }

  // ---- Whole runs ----

  /** Never short for `side` long, never long for `side` short. */
  predicate NotAgainst(side: Side, acct: Account) {
    if side == Long then acct.quantity >= 0.0 else acct.quantity <= 0.0
  }

  /** A feed that never signals an entry against `side`. */
  predicate NeverSignals(feed: Feed, side: Side) {
    forall i :: 0 <= i < |feed.signals| ==> feed.signals[i] != if side == Long then SELL else BUY
  }

  lemma BarStaysOnSide(cfg: Config, feed: Feed, i: nat, s: State, side: Side)
    requires Sane(cfg, feed) && i < feed.Length() && s.acct.Margined? && NotAgainst(side, s.acct)
    requires NeverSignals(feed, side)
    ensures var after := StepBar(cfg, feed, i, s).acct; after.Margined? && NotAgainst(side, after)
  {
    hide StepBar, BeforeSignal, IsStale, Wanted, CloseFrom, SaneCosts;
    var before := BeforeSignal(cfg, feed.bars[i], feed.AverageVolume(), s);
    BeforeSignalOnlyCloses(cfg, feed.bars[i], feed.AverageVolume(), s);
    BarTakesSide(cfg, feed, i, s);
    FlattenedIsFlat(cfg, before, feed.FillBase(i), feed.FillBar(i), feed.AverageVolume());
    StepIsMargined(cfg, feed, i, s);
  }

  lemma StepIsMargined(cfg: Config, feed: Feed, i: nat, s: State)
    requires feed.Valid() && i < feed.Length() && s.acct.Margined?
    ensures StepBar(cfg, feed, i, s).acct.Margined?
  {
    hide BeforeSignal, FillCosts, Unrealized, Value, Units, InitialMargin, LeveragedNotional, Capped, Equity,
      StopsEarly, IsStale;
    BeforeSignalOnlyCloses(cfg, feed.bars[i], feed.AverageVolume(), s);
  }

  /** Over every run, a feed without sell signals is never short, and one without buy signals is never long. */
  lemma {:induction false} OneSidedFeedStaysOnSide(cfg: Config, feed: Feed, k: nat, side: Side)
    requires Sane(cfg, feed) && k <= feed.Length() && NeverSignals(feed, side)
    ensures var acct := RunBars(cfg, feed, Margined(cfg.initialCapital, 0.0, 0.0, 0.0), k).acct;
            acct.Margined? && NotAgainst(side, acct)
  {
    hide StepBar, SaneCosts, NeverSignals;
    if k > 0 {
      OneSidedFeedStaysOnSide(cfg, feed, k - 1, side);
      var s := RunBars(cfg, feed, Margined(cfg.initialCapital, 0.0, 0.0, 0.0), k - 1);
      if !s.stopped {
        BarStaysOnSide(cfg, feed, k - 1, s, side);
      }
    }
  }

  // ---- What the side earns ----

  /**
   * After an entry the account is worth what it was, plus its signed quantity times the move from its entry price, less
   * the entry commission.
   */
  lemma EntryEarnsTheMove(
    cfg: Config, s: State, isLong: bool, base: real, bar: Bar, avgVolume: real, sizePct: real, mark: real)
    requires s.acct.Margined? && s.acct.quantity == 0.0
    ensures var after := OpenFrom(cfg, s, isLong, base, bar, avgVolume, sizePct);
            Equity(after.acct, mark) == Equity(s.acct, base) + Times(after.acct.quantity, mark - after.acct.entry)
                                        - (after.stats.entryCommission - s.stats.entryCommission)
  {
    hide FillCosts, LeveragedNotional, Capped, InitialMargin, Units;
  }

  /** No cost component applies. */
  predicate Costless(cfg: Config, rate: real) {
    && cfg.slippage == Flat(0.0) && cfg.realism.impactK == 0.0
    && !cfg.realism.spreadFromRange && !cfg.realism.adverseSelection && rate == 0.0
  }

  /** Without costs, buying gains exactly on a rise from the price bought at, and selling on a fall. */
  lemma CostlessEntryEarnsTheMove(
    cfg: Config, s: State, isLong: bool, base: real, bar: Bar, avgVolume: real, sizePct: real, mark: real)
    requires SaneCosts(cfg) && SaneBar(bar) && base > 0.0 && s.acct.Margined? && s.acct.quantity == 0.0
    requires Costless(cfg, s.stats.rate) && Wanted(cfg, s, base, sizePct) > 0.0 && bar.volume > 0.0
    ensures var after := OpenFrom(cfg, s, isLong, base, bar, avgVolume, sizePct).acct;
            && Equity(after, mark) == Equity(s.acct, base) + Times(after.quantity, mark - base)
            && (Equity(after, mark) > Equity(s.acct, base) <==> if isLong then mark > base else mark < base)
  {
    OpenTakesSide(cfg, s, isLong, base, bar, avgVolume, sizePct);
    EntryEarnsTheMove(cfg, s, isLong, base, bar, avgVolume, sizePct, mark);
    CostlessFill(cfg, s, isLong, base, bar, avgVolume, sizePct);
    hide OpenFrom, Equity, Wanted, SaneCosts, SaneBar, Times, Costless;
    var after := OpenFrom(cfg, s, isLong, base, bar, avgVolume, sizePct).acct;
    MoveSign(after.quantity, mark - base);
  }

  lemma MoveSign(quantity: real, move: real)
    ensures quantity > 0.0 ==> (Times(quantity, move) > 0.0 <==> move > 0.0)
    ensures quantity < 0.0 ==> (Times(quantity, move) > 0.0 <==> move < 0.0)
  {}

  lemma CostlessFill(cfg: Config, s: State, isLong: bool, base: real, bar: Bar, avgVolume: real, sizePct: real)
    requires Costless(cfg, s.stats.rate) && Wanted(cfg, s, base, sizePct) > 0.0 && bar.volume > 0.0
    requires s.acct.Margined?
    ensures var after := OpenFrom(cfg, s, isLong, base, bar, avgVolume, sizePct);
            after.acct.entry == base && after.stats.entryCommission == s.stats.entryCommission
  {
    hide LeveragedNotional, Equity, InitialMargin, Units, ReportedCost, Capped;
    var size := Wanted(cfg, s, base, sizePct);
    var q := FillCosts(cfg, base, isLong, bar, avgVolume, size, true);
    CappedSign(size, bar, cfg.fillFraction, q.price);
  }
}
