/** The money of the candle simulator: its account, trade statistics and fill costs (backtest/src/candle_sim.rs). */
module CandleLedger {
  import opened Reals
  import opened Margin

  datatype Bar = Bar(open: real, high: real, low: real, close: real, volume: real, timestamp: int)

  datatype SlippageModel = Flat(bps: real) | VolumeAdjusted(baseBps: real, maxMultiplier: real)

  datatype Tier = Tier(minVolume: real, takerFee: real)

  datatype Realism = Realism(intrabarPath: bool, impactK: real, spreadFromRange: bool, spreadCapBps: real,
                             adverseSelection: bool, adverseMaxBps: real, latencyMean: real, latencyStd: real,
                             feeTiers: Option<seq<Tier>>, startingVolume: real)

  datatype EarlyTerm = EarlyTerm(maxLossPct: real, checkInterval: nat)

  /** `root` stands for the square root. */
  datatype Config = Config(initialCapital: real, commissionRate: real, slippage: SlippageModel, fillFraction: real,
                           fundingRate8h: real, fundingIntervalMs: int, realism: Realism, trackCurve: bool,
                           leverage: real, maintenance: real, penaltyBps: real,
                           stopLoss: Option<real>, takeProfit: Option<real>, earlyTerm: Option<EarlyTerm>,
                           root: real -> real)

  // ---- Accounts ----

  /**
   * A margined account posts margin for either side. A spot account pays the value of a long and receives the
   * proceeds of a short. The simulator runs on the first; the second is what leverage 1 is claimed to equal.
   */
  datatype Account =
    | Margined(cash: real, quantity: real, entry: real, margin: real)
    | Spot(cash: real, quantity: real, entry: real)

  function Unrealized(quantity: real, entry: real, mark: real): real {
    if quantity > 0.0 then (mark - entry) * quantity
    else if quantity < 0.0 then (entry - mark) * Abs(quantity)
    else 0.0
  }

  function Value(quantity: real, price: real): real {
    quantity * price
  }

  function Equity(a: Account, mark: real): real {
    match a
    case Margined(cash, quantity, entry, margin) => cash + margin + Unrealized(quantity, entry, mark)
    case Spot(cash, quantity, _) => cash + Value(quantity, mark)
  }

  function Charged(a: Account, amount: real): Account {
    a.(cash := a.cash - amount)
  }

  function Closed(a: Account, fill: real, commission: real): Account {
    match a
    case Margined(cash, quantity, entry, margin) =>
      Margined(cash + (margin + (Unrealized(quantity, entry, fill) - commission)), 0.0, 0.0, 0.0)
    case Spot(cash, quantity, _) => Spot(cash + Value(quantity, fill) - commission, 0.0, 0.0)
  }

  /** What a value buys at a fill price; a price of zero, where the quotient is not finite, counts as none. */
  function Units(value: real, fill: real): real {
    if fill == 0.0 then 0.0 else value / fill
  }

  function Opened(a: Account, isLong: bool, value: real, fill: real, commission: real, leverage: real): Account {
    var size := Units(value, fill);
    var quantity := if isLong then size else -size;
    match a
    case Margined(cash, _, _, margin) =>
      var posted := InitialMargin(value, leverage);
      Margined(cash - (posted + commission), quantity, fill, margin + posted)
    case Spot(cash, _, _) => Spot((if isLong then cash - value else cash + value) - commission, quantity, fill)
  }

  // ---- Fill costs ----

  /** The price an order fills at and what each realism component added to the reported costs. */
  datatype FillQuote = FillQuote(price: real, impact: real, spread: real, adverse: real)

  function SlippageBps(cfg: Config, volume: real, avgVolume: real): real {
    match cfg.slippage
    case Flat(bps) => bps
    case VolumeAdjusted(baseBps, maxMultiplier) =>
      var ratio := if volume > 0.0 && avgVolume > 0.0 then cfg.root(avgVolume / volume) else maxMultiplier;
      baseBps * Min(ratio, maxMultiplier)
  }

  function Participation(bar: Bar, orderValue: real): real {
    var vwap := (bar.open + bar.high + bar.low + bar.close) * 0.25;
    if vwap > 0.0 && bar.volume * vwap != 0.0 then orderValue / (bar.volume * vwap) else 0.0
  }

  function ImpactBps(cfg: Config, bar: Bar, orderValue: real): real {
    if cfg.realism.impactK > 0.0 && bar.volume > 0.0 then
      cfg.realism.impactK * cfg.root(Min(Participation(bar, orderValue), 1.0)) * 10000.0
    else 0.0
  }

  function SpreadBps(cfg: Config, bar: Bar, isEntry: bool): real {
    if isEntry && cfg.realism.spreadFromRange && bar.close > 0.0 then
      Min((bar.high - bar.low) / bar.close * 10000.0, cfg.realism.spreadCapBps) * 0.5
    else 0.0
  }

  function AdverseBps(cfg: Config, bar: Bar, isBuy: bool, isEntry: bool): real {
    if isEntry && cfg.realism.adverseSelection && bar.open > 0.0 then
      var change := (bar.close - bar.open) / bar.open;
      if (isBuy && change > 0.0) || (!isBuy && change < 0.0)
      then Min(Abs(change) * 10000.0, cfg.realism.adverseMaxBps) else 0.0
    else 0.0
  }

  /** Reported cost of a component; a price of zero, where the quotient is not finite, counts as one unit. */
  function ReportedCost(price: real, bps: real, orderValue: real): real {
    price * bps / 10000.0 * Max(if price != 0.0 then orderValue / price else 0.0, 1.0)
  }

  function Slipped(price: real, bps: real, isBuy: bool): real {
    var slip := price * bps / 10000.0;
    if isBuy then price + slip else price - slip
  }

  function FillCosts(cfg: Config, price: real, isBuy: bool, bar: Bar, avgVolume: real, orderValue: real,
                     isEntry: bool): FillQuote
  {
    var impact := ImpactBps(cfg, bar, orderValue);
    var spread := SpreadBps(cfg, bar, isEntry);
    var adverse := AdverseBps(cfg, bar, isBuy, isEntry);
    FillQuote(Slipped(price, SlippageBps(cfg, bar.volume, avgVolume) + impact + spread + adverse, isBuy),
              ReportedCost(price, impact, orderValue), ReportedCost(price, spread, orderValue),
              ReportedCost(price, adverse, orderValue))
  }

  // ---- Trade statistics ----

  datatype Stats = Stats(pnls: seq<real>, wins: nat, losses: nat, grossProfit: real, grossLoss: real,
                         commission: real, entryCommission: real, funding: real, skips: nat,
                         spreadCost: real, impactCost: real, adverseCost: real,
                         latencyRejected: nat, tierChanges: nat, liquidations: nat,
                         rollingVolume: real, rate: real, lastTierCheck: int, lastFunding: int)

  datatype State = State(acct: Account, stats: Stats, curve: seq<real>, peak: real, drawdown: real, stopped: bool)

  function Costed(stats: Stats, q: FillQuote): Stats {
    stats.(spreadCost := stats.spreadCost + q.spread, impactCost := stats.impactCost + q.impact,
           adverseCost := stats.adverseCost + q.adverse)
  }

  /** Books one closed trade. */
  function Booked(stats: Stats, pnl: real, exitValue: real, commission: real): Stats {
    var s := stats.(commission := stats.commission + commission, rollingVolume := stats.rollingVolume + exitValue,
                    pnls := stats.pnls + [pnl]);
    if pnl > 0.0 then s.(wins := s.wins + 1, grossProfit := s.grossProfit + pnl)
    else s.(losses := s.losses + 1, grossLoss := s.grossLoss + Abs(pnl))
  }

  /** Closes the whole position at a fill price. */
  function CloseAtFill(s: State, fill: real): State {
    var exitValue := Value(Abs(s.acct.quantity), fill);
    var commission := Value(exitValue, s.stats.rate);
    var pnl := Unrealized(s.acct.quantity, s.acct.entry, fill) - commission;
    s.(acct := Closed(s.acct, fill, commission), stats := Booked(s.stats, pnl, exitValue, commission))
  }

  /** Closes the whole position from a base price, paying exit costs. */
  function CloseFrom(cfg: Config, s: State, base: real, bar: Bar, avgVolume: real): State {
    var q := FillCosts(cfg, base, s.acct.quantity <= 0.0, bar, avgVolume, Value(Abs(s.acct.quantity), base), false);
    CloseAtFill(s.(stats := Costed(s.stats, q)), q.price)
  }

  /** The value the configured share of a bar's volume can absorb. */
  function Absorbable(bar: Bar, fraction: real, fill: real): real {
    bar.volume * fraction * fill
  }

  /** The value an order may take from a bar, and whether the bar constrained it. */
  function Capped(size: real, bar: Bar, fraction: real, fill: real): (real, bool) {
    var most := Absorbable(bar, fraction, fill);
    if most > 0.0 && size > most then (most, true) else (size, bar.volume <= 0.0)
  }

  function OpenAtFill(cfg: Config, s: State, isLong: bool, value: real, fill: real): State {
    var commission := Value(value, s.stats.rate);
    s.(acct := Opened(s.acct, isLong, value, fill, commission, cfg.leverage),
       stats := s.stats.(commission := s.stats.commission + commission,
                         entryCommission := s.stats.entryCommission + commission,
                         rollingVolume := s.stats.rollingVolume + value))
  }

  /** Sizes and opens a position from a flat account, or skips it. */
  function OpenFrom(cfg: Config, s: State, isLong: bool, base: real, bar: Bar, avgVolume: real, sizePct: real): State {
    var size := LeveragedNotional(Equity(s.acct, base), sizePct, cfg.leverage);
    var q := FillCosts(cfg, base, isLong, bar, avgVolume, size, true);
    var (value, constrained) := Capped(size, bar, cfg.fillFraction, q.price);
    var costed := s.(stats := Costed(s.stats, q).(skips := s.stats.skips + if constrained then 1 else 0));
    if value > 0.0 && bar.volume > 0.0 then OpenAtFill(cfg, costed, isLong, value, q.price) else costed
  }

  // ---- Leverage 1 is the spot account ----

  ghost predicate Posted(a: Account, leverage: real) {
    && a.Margined?
    && (a.quantity == 0.0 ==> a.entry == 0.0 && a.margin == 0.0)
    && (a.quantity != 0.0 ==> a.entry > 0.0 && a.margin == InitialMargin(Value(Abs(a.quantity), a.entry), leverage))
  }

  /** The spot account equal to a margined one: the proceeds of a short were received, not posted. */
  function SpotOf(a: Account): Account
    requires a.Margined?
  {
    Spot(if a.quantity < 0.0 then a.cash + 2.0 * a.margin else a.cash, a.quantity, a.entry)
  }

  function SpotState(s: State): State
    requires s.acct.Margined?
  {
    s.(acct := SpotOf(s.acct))
  }

  lemma SameEquity(a: Account, mark: real, leverage: real)
    requires Posted(a, leverage) && leverage <= 1.0
    ensures Equity(SpotOf(a), mark) == Equity(a, mark)
  {}

  lemma SameClosed(a: Account, fill: real, commission: real, leverage: real)
    requires Posted(a, leverage) && leverage <= 1.0
    ensures Closed(SpotOf(a), fill, commission) == SpotOf(Closed(a, fill, commission))
  {}

  lemma SameOpened(a: Account, isLong: bool, value: real, fill: real, commission: real, leverage: real)
    requires Posted(a, leverage) && leverage <= 1.0 && a.quantity == 0.0 && value > 0.0 && fill > 0.0
    ensures Opened(SpotOf(a), isLong, value, fill, commission, leverage) ==
            SpotOf(Opened(a, isLong, value, fill, commission, leverage))
  {}

  lemma OpenedIsPosted(a: Account, isLong: bool, value: real, fill: real, commission: real, leverage: real)
    requires Posted(a, leverage) && a.quantity == 0.0 && value > 0.0 && fill > 0.0
    ensures Posted(Opened(a, isLong, value, fill, commission, leverage), leverage)
    ensures Opened(a, isLong, value, fill, commission, leverage).quantity != 0.0
  {}

  // ---- Conservation ----

  predicate IsGain(x: real) {
    x > 0.0
  }

  function Gains(pnls: seq<real>): seq<real> {
    if pnls == [] then []
    else Gains(pnls[..|pnls| - 1]) + if IsGain(pnls[|pnls| - 1]) then [pnls[|pnls| - 1]] else []
  }

  /** The statistics describe exactly the logged trades. */
  ghost predicate Tallied(stats: Stats) {
    && stats.grossProfit - stats.grossLoss == Sum(stats.pnls)
    && stats.grossProfit == Sum(Gains(stats.pnls))
    && stats.wins + stats.losses == |stats.pnls|
    && stats.wins == |Gains(stats.pnls)|
  }

  /** Cash and posted margin are the initial capital, plus every trade, less entry commissions and funding. */
  ghost predicate Balanced(initial: real, s: State) {
    && s.acct.Margined?
    && s.acct.cash + s.acct.margin == initial + Sum(s.stats.pnls) - s.stats.entryCommission - s.stats.funding
    && Tallied(s.stats)
  }

  lemma BookKeepsTally(stats: Stats, pnl: real, exitValue: real, commission: real)
    requires Tallied(stats)
    ensures Tallied(Booked(stats, pnl, exitValue, commission))
    ensures Sum(stats.pnls + [pnl]) == Sum(stats.pnls) + pnl
  {
    SumAppend(stats.pnls, pnl);
    assert (stats.pnls + [pnl])[..|stats.pnls|] == stats.pnls;
    if IsGain(pnl) {
      SumAppend(Gains(stats.pnls), pnl);
      assert Gains(stats.pnls + [pnl]) == Gains(stats.pnls) + [pnl];
    } else {
      assert Gains(stats.pnls + [pnl]) == Gains(stats.pnls);
    }
  }

  lemma CloseKeepsBalance(initial: real, s: State, fill: real)
    requires Balanced(initial, s)
    ensures Balanced(initial, CloseAtFill(s, fill))
    ensures CloseAtFill(s, fill).acct == Margined(CloseAtFill(s, fill).acct.cash, 0.0, 0.0, 0.0)
  {
    hide Unrealized, Value, Sum, Tallied;
    var exitValue := Value(Abs(s.acct.quantity), fill);
    var commission := Value(exitValue, s.stats.rate);
    BookKeepsTally(s.stats, Unrealized(s.acct.quantity, s.acct.entry, fill) - commission, exitValue, commission);
  }

  lemma OpenKeepsBalance(initial: real, cfg: Config, s: State, isLong: bool, value: real, fill: real)
    requires Balanced(initial, s)
    ensures Balanced(initial, OpenAtFill(cfg, s, isLong, value, fill))
  {}
}
