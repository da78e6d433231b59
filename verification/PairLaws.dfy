/** Two-run laws of the two-leg engine: swapping entry directions, and scaling leverage. */
module PairLaws {
  import opened Reals
  import opened Margin
  import opened Legs
  import opened TickBook
  import opened Pairs

  // ---- Swapping long and short entries ----

  function Swapped(signal: int): int {
    if IsEntrySignal(signal) then -signal else signal
  }

  function SwappedAll(signals: seq<int>): seq<int> {
    seq(|signals|, i requires 0 <= i < |signals| => Swapped(signals[i]))
  }

  function MirrorLeg(leg: Leg): Leg {
    leg.(side := leg.side.Opposite())
  }

  function Mirror(open: Option<Position>): Option<Position> {
    match open
    case None => None
    case Some(p) => Some(p.(legA := MirrorLeg(p.legA), legB := MirrorLeg(p.legB)))
  }

  function MirrorTrade(trade: Trade): Trade {
    trade.(pnl := -trade.pnl, pnlPct := -trade.pnlPct,
           legs := seq(|trade.legs|, i requires 0 <= i < |trade.legs| => MirrorLeg(trade.legs[i])))
  }

  /** Same ids, sizes, prices and times; every profit negated; the curve reflected about `initial`. */
  function MirrorBook(b: Book<Position>, initial: real): Book<Position> {
    b.(open := Mirror(b.open),
       realized := -b.realized,
       trades := seq(|b.trades|, i requires 0 <= i < |b.trades| => MirrorTrade(b.trades[i])),
       equity := seq(|b.equity|, i requires 0 <= i < |b.equity| => 2.0 * initial - b.equity[i]))
  }

  predicate Costless(open: Option<Position>) {
    open.Some? ==> open.value.legA.entryCommission == 0.0 && open.value.legB.entryCommission == 0.0
  }

  predicate FreeTrading(m: Market) {
    m.feeA == LegFee(0.0, 0.0) && m.feeB == LegFee(0.0, 0.0)
  }

  lemma FreeFill(mid: real, quantity: real, isBuy: bool)
    ensures TakerFill(mid, quantity, isBuy, LegFee(0.0, 0.0)) == Fill(mid, 0.0, 0.0)
  {}

  lemma FreeOpenLeg(side: Side, quantity: real, mid: real)
    ensures OpenLeg(side, quantity, mid, LegFee(0.0, 0.0)) == Leg(side, quantity, mid, 0.0, 0.0)
  {}

  lemma MirrorNegatesPnl(leg: Leg, price: real)
    ensures SignedPnl(MirrorLeg(leg), price) == -SignedPnl(leg, price)
  {}

  lemma MirrorClose(m: Market, t: nat, p: Position, baseA: real, baseB: real, reason: ExitReason, id: nat)
    requires m.Covers(t + 1) && FreeTrading(m) && Costless(Some(p))
    ensures CloseAt(m, t, Mirror(Some(p)).value, baseA, baseB, reason, id) ==
            MirrorTrade(CloseAt(m, t, p, baseA, baseB, reason, id))
    ensures MarkedPnl(MirrorLeg(p.legA), baseA) == -MarkedPnl(p.legA, baseA)
    ensures MarkedPnl(MirrorLeg(p.legB), baseB) == -MarkedPnl(p.legB, baseB)
  {
    hide TakerFill, SignedPnl;
    FreeFill(baseA, p.legA.quantity, true);
    FreeFill(baseA, p.legA.quantity, false);
    FreeFill(baseB, p.legB.quantity, true);
    FreeFill(baseB, p.legB.quantity, false);
    MirrorNegatesPnl(p.legA, baseA);
    MirrorNegatesPnl(p.legB, baseB);
  }

  /** The opposite sides, in the same sizes, at the same hedge ratio and time. */
  predicate Opposed(p: Position, q: Position) {
    && q.legA.side == p.legA.side.Opposite() && q.legB.side == p.legB.side.Opposite()
    && q.legA.quantity == p.legA.quantity && q.legB.quantity == p.legB.quantity
    && q.hedgeRatio == p.hedgeRatio && q.entryTime == p.entryTime
  }

  /** Under any fees, an entry the other way round is refused for the same reason or takes the opposite sides of it. */
  lemma MirrorEntry(m: Market, t: nat, signal: int)
    requires m.Covers(t + 1) && IsEntrySignal(signal)
    ensures var e, e' := EntryEvent(m, t, signal), EntryEvent(m, t, -signal);
            && (e.Entered? || e.NoData? || e.RiskLimit?)
            && if e.Entered? then e'.Entered? && Opposed(e.position, e'.position) else e' == e
  {
    hide RollingSpreadMean, HedgeRatio, Sizes, ExceedsRiskLimit, TakerFill;
  }

  /** Without fees the prices are the same too, so the entry is the exact mirror. */
  lemma FreeMirrorEntry(m: Market, t: nat, signal: int)
    requires m.Covers(t + 1) && FreeTrading(m) && IsEntrySignal(signal)
    ensures var e, e' := EntryEvent(m, t, signal), EntryEvent(m, t, -signal);
            if e.Entered? then
              e'.Entered? && Some(e'.position) == Mirror(Some(e.position)) && Costless(Some(e.position))
            else e' == e
  {
    hide RollingSpreadMean, HedgeRatio, Sizes, ExceedsRiskLimit, OpenLeg;
    if m.Tradable(t) && HedgeRatio(m, t).Some? {
      var priceA, priceB := m.a.prices[t].value, m.b.prices[t].value;
      var (qtyA, qtyB) := Sizes(m.cfg, priceA, priceB, HedgeRatio(m, t).value);
      FreeOpenLeg(Long, qtyA, priceA);
      FreeOpenLeg(Short, qtyA, priceA);
      FreeOpenLeg(Long, qtyB, priceB);
      FreeOpenLeg(Short, qtyB, priceB);
    }
  }

  function MirrorEvent(e: Event<Position>): Event<Position> {
    match e
    case Entered(p) => Entered(Mirror(Some(p)).value)
    case Closed(trade) => Closed(MirrorTrade(trade))
    case Called(trade) => Called(MirrorTrade(trade))
    case _ => e
  }

  lemma MirrorDecide(m: Market, t: nat, signal: int, open: Option<Position>, id: nat)
    requires m.Feeds(t + 1) && FreeTrading(m) && m.cfg.risk.leverage <= 1.0 && Costless(open)
    ensures Decide(m, t, Swapped(signal), Mirror(open), id) == MirrorEvent(Decide(m, t, signal, open, id))
    ensures Costless(Record(Book(open, 0.0, [], id, 0, 0, 0, []), Decide(m, t, signal, open, id)).open)
  {
    hide EntryEvent, CloseAt, MirrorTrade;
    if open.Some? {
      if m.Tradable(t) {
        MirrorClose(m, t, open.value, m.a.prices[t].value, m.b.prices[t].value, CloseSignal, id);
      }
    } else if IsEntrySignal(signal) {
      FreeMirrorEntry(m, t, signal);
    }
  }

  lemma MirrorMark(m: Market, t: nat, open: Option<Position>)
    requires m.Covers(t + 1) && FreeTrading(m) && Costless(open)
    ensures Mark(m, t, Mirror(open)) == -Mark(m, t, open)
  {}

  lemma MirrorPost(b: Book<Position>, e: Event<Position>, initial: real, mark: real)
    ensures Post(MirrorBook(b, initial), MirrorEvent(e), initial, -mark) ==
            MirrorBook(Post(b, e, initial, mark), initial)
  {
    hide MirrorLeg;
    var left, right := Post(MirrorBook(b, initial), MirrorEvent(e), initial, -mark),
                       MirrorBook(Post(b, e, initial, mark), initial);
    assert left.trades == right.trades;
    assert left.equity == right.equity;
  }

  /** Without fees or leverage, swapping 1 and -1 negates every profit and reflects the equity curve. */
  lemma {:induction false} SwapReflectsRun(m: Market, signals: seq<int>, k: nat)
    requires k <= |signals| && m.Feeds(k) && FreeTrading(m) && m.cfg.risk.leverage <= 1.0
    ensures Run(m, SwappedAll(signals), k) == MirrorBook(Run(m, signals, k), m.cfg.initialCapital)
    ensures Costless(Run(m, signals, k).open)
  {
    if k == 0 {
      MirrorEmpty(m.cfg.initialCapital);
    } else {
      SwapReflectsRun(m, signals, k - 1);
      hide Step, MirrorBook, Swapped, Costless;
      MirrorStep(m, k - 1, signals[k - 1], Run(m, signals, k - 1));
    }
  }

  lemma MirrorStep(m: Market, t: nat, signal: int, b: Book<Position>)
    requires m.Feeds(t + 1) && FreeTrading(m) && m.cfg.risk.leverage <= 1.0 && Costless(b.open)
    ensures Step(m, t, Swapped(signal), MirrorBook(b, m.cfg.initialCapital)) ==
            MirrorBook(Step(m, t, signal, b), m.cfg.initialCapital)
    ensures Costless(Step(m, t, signal, b).open)
  {
    hide Decide, Mark, MirrorBook, MirrorEvent, Swapped, Mirror;
    var e := Decide(m, t, signal, b.open, b.nextId);
    MirrorDecide(m, t, signal, b.open, b.nextId);
    MirrorMark(m, t, Record(b, e).open);
    MirrorPost(b, e, m.cfg.initialCapital, Mark(m, t, Record(b, e).open));
    MirrorRecordOpen(b, e, m.cfg.initialCapital);
  }

  lemma MirrorEmpty(initial: real)
    ensures EmptyBook() == MirrorBook(EmptyBook(), initial)
  {}

  lemma MirrorRecordOpen(b: Book<Position>, e: Event<Position>, initial: real)
    ensures MirrorBook(b, initial).open == Mirror(b.open) && MirrorBook(b, initial).nextId == b.nextId
    ensures Record(MirrorBook(b, initial), MirrorEvent(e)).open == Mirror(Record(b, e).open)
  {}

  // ---- Scaling leverage ----

  lemma TimesAdds(k: real, x: real, y: real)
    ensures Times(k, x + y) == Times(k, x) + Times(k, y)
    ensures Times(k, x - y) == Times(k, x) - Times(k, y)
    ensures Times(k, -x) == -Times(k, x)
    ensures Times(k, 0.0) == 0.0
  {}

  lemma NonNegativeScales(x: real, k: real)
    requires k > 0.0
    ensures NonNegative(Times(k, x)) == Times(k, NonNegative(x))
  {}

  function ScaleLeg(leg: Leg, k: real): Leg {
    leg.(quantity := Times(k, leg.quantity), entryCommission := Times(k, leg.entryCommission),
         entrySlippage := Times(k, leg.entrySlippage))
  }

  function ScaleFill(fill: Fill, k: real): Fill {
    fill.(commission := Times(k, fill.commission), slippage := Times(k, fill.slippage))
  }

  function ScalePosition(p: Position, k: real): Position {
    p.(legA := ScaleLeg(p.legA, k), legB := ScaleLeg(p.legB, k))
  }

  function ScaleOpen(open: Option<Position>, k: real): Option<Position> {
    match open
    case None => None
    case Some(p) => Some(ScalePosition(p, k))
  }

  function ScaleTrade(trade: Trade, k: real): Trade {
    trade.(pnl := Times(k, trade.pnl), commission := Times(k, trade.commission), slippage := Times(k, trade.slippage),
           legs := seq(|trade.legs|, i requires 0 <= i < |trade.legs| => ScaleLeg(trade.legs[i], k)))
  }

  /**
   * Same prices, times, ids and counters; sizes, costs and profits times `k`; the curve's distance from `initial` times
   * `k`.
   */
  function ScaleBook(b: Book<Position>, initial: real, k: real): Book<Position> {
    b.(open := ScaleOpen(b.open, k),
       realized := Times(k, b.realized),
       trades := seq(|b.trades|, i requires 0 <= i < |b.trades| => ScaleTrade(b.trades[i], k)),
       equity := seq(|b.equity|, i requires 0 <= i < |b.equity| => initial + Times(k, b.equity[i] - initial)))
  }

  function ScaleEvent(e: Event<Position>, k: real): Event<Position> {
    match e
    case Entered(p) => Entered(ScalePosition(p, k))
    case Closed(trade) => Closed(ScaleTrade(trade, k))
    case Called(trade) => Called(ScaleTrade(trade, k))
    case _ => e
  }

  function GearedRisk(cfg: Config, k: real): Config {
    cfg.(risk := cfg.risk.(leverage := Times(k, cfg.risk.leverage)))
  }

  /** The same market traded at `k` times the leverage. */
  function Geared(m: Market, k: real): Market {
    m.(cfg := GearedRisk(m.cfg, k))
  }

  /** Slippage that can move a fill at most to zero or to twice the price. */
  predicate SaneSlippage(m: Market) {
    && -10000.0 <= m.feeA.slippageBps <= 10000.0
    && -10000.0 <= m.feeB.slippageBps <= 10000.0
  }

  predicate Gearable(m: Market, k: real) {
    k >= 1.0 && m.cfg.risk.leverage >= 1.0 && SaneSlippage(m)
  }

  predicate NonNegativeEntries(open: Option<Position>) {
    open.Some? ==> open.value.legA.entryPrice >= 0.0 && open.value.legB.entryPrice >= 0.0
  }

  lemma FillScales(mid: real, quantity: real, isBuy: bool, fee: LegFee, k: real)
    ensures TakerFill(mid, Times(k, quantity), isBuy, fee) == ScaleFill(TakerFill(mid, quantity, isBuy, fee), k)
  {}

  lemma PnlScales(leg: Leg, price: real, k: real)
    ensures SignedPnl(ScaleLeg(leg, k), price) == Times(k, SignedPnl(leg, price))
  {}

  lemma NotionalScales(leg: Leg, k: real)
    ensures EntryNotional(ScaleLeg(leg, k)) == Times(k, EntryNotional(leg))
  {}

  lemma OpenLegScales(side: Side, quantity: real, mid: real, fee: LegFee, k: real)
    ensures OpenLeg(side, Times(k, quantity), mid, fee) == ScaleLeg(OpenLeg(side, quantity, mid, fee), k)
  {}

  lemma ReturnIsScaleFree(pnl: real, notional: real, k: real)
    requires k > 0.0
    ensures ReturnOnNotional(Times(k, pnl), Times(k, notional)) == ReturnOnNotional(pnl, notional)
  {}

  lemma NetPnlScales(leg: Leg, base: real, fee: LegFee, k: real)
    ensures ExitFill(ScaleLeg(leg, k), base, fee) == ScaleFill(ExitFill(leg, base, fee), k)
    ensures NetPnl(ScaleLeg(leg, k), ScaleFill(ExitFill(leg, base, fee), k)) ==
            Times(k, NetPnl(leg, ExitFill(leg, base, fee)))
  {
    hide TakerFill, SignedPnl, Times;
    var exit := ExitFill(leg, base, fee);
    FillScales(base, leg.quantity, leg.side == Short, fee, k);
    PnlScales(leg, exit.price, k);
    TimesAdds(k, SignedPnl(leg, exit.price) - leg.entryCommission, exit.commission);
    TimesAdds(k, SignedPnl(leg, exit.price), leg.entryCommission);
  }

  lemma CloseScales(m: Market, t: nat, p: Position, baseA: real, baseB: real, id: nat, k: real)
    requires m.Covers(t + 1) && k > 0.0
    ensures CloseAt(m, t, ScalePosition(p, k), baseA, baseB, CloseSignal, id) ==
            ScaleTrade(CloseAt(m, t, p, baseA, baseB, CloseSignal, id), k)
  {
    hide ExitFill, NetPnl, ReturnOnNotional, EntryNotional, Times;
    NetPnlScales(p.legA, baseA, m.feeA, k);
    NetPnlScales(p.legB, baseB, m.feeB, k);
    NotionalScales(p.legA, k);
    NotionalScales(p.legB, k);
    var exitA, exitB := ExitFill(p.legA, baseA, m.feeA), ExitFill(p.legB, baseB, m.feeB);
    TimesAdds(k, NetPnl(p.legA, exitA), NetPnl(p.legB, exitB));
    TimesAdds(k, EntryNotional(p.legA), EntryNotional(p.legB));
    ReturnIsScaleFree(NetPnl(p.legA, exitA) + NetPnl(p.legB, exitB), EntryNotional(p.legA) + EntryNotional(p.legB), k);
    CostsScale(p.legA.entryCommission, p.legB.entryCommission, exitA.commission, exitB.commission, k);
    CostsScale(p.legA.entrySlippage, p.legB.entrySlippage, exitA.slippage, exitB.slippage, k);
    assert CloseAt(m, t, ScalePosition(p, k), baseA, baseB, CloseSignal, id).legs ==
           ScaleTrade(CloseAt(m, t, p, baseA, baseB, CloseSignal, id), k).legs;
  }

  lemma CostsScale(w: real, x: real, y: real, z: real, k: real)
    ensures Times(k, w) + Times(k, x) + Times(k, y) + Times(k, z) == Times(k, w + x + y + z)
  {}

  lemma MarkScales(m: Market, t: nat, open: Option<Position>, k: real)
    requires m.Covers(t + 1)
    ensures Mark(m, t, ScaleOpen(open, k)) == Times(k, Mark(m, t, open))
  {
    hide SignedPnl, Times;
    TimesAdds(k, 0.0, 0.0);
    if open.Some? && m.Tradable(t) {
      var p, priceA, priceB := open.value, m.a.prices[t].value, m.b.prices[t].value;
      PnlScales(p.legA, priceA, k);
      PnlScales(p.legB, priceB, k);
      TimesAdds(k, SignedPnl(p.legA, priceA), p.legA.entryCommission);
      TimesAdds(k, SignedPnl(p.legB, priceB), p.legB.entryCommission);
      TimesAdds(k, MarkedPnl(p.legA, priceA), MarkedPnl(p.legB, priceB));
    }
  }

  lemma CapFactorIsScaleFree(combined: real, cap: real, k: real)
    requires k > 0.0
    ensures CapFactor(Times(k, combined), Times(k, cap)) == CapFactor(combined, cap)
  {}

  lemma ShrinkScales(quantity: real, factor: real, k: real)
    ensures Shrink(Times(k, quantity), factor) == Times(k, Shrink(quantity, factor))
  {}

  lemma JointNotionalScales(a: real, priceA: real, b: real, priceB: real, k: real)
    ensures JointNotional(Times(k, a), priceA, Times(k, b), priceB) == Times(k, JointNotional(a, priceA, b, priceB))
  {}

  lemma HedgeQuantityScales(ratio: real, quantity: real, k: real)
    ensures HedgeQuantity(ratio, Times(k, quantity)) == Times(k, HedgeQuantity(ratio, quantity))
  {}

  lemma LeverageScales(equity: real, sizePct: real, leverage: real, k: real)
    requires k >= 1.0 && leverage >= 1.0
    ensures LeveragedNotional(equity, sizePct, Times(k, leverage)) ==
            Times(k, LeveragedNotional(equity, sizePct, leverage))
    ensures ExposureCap(equity, Times(k, leverage)) == Times(k, ExposureCap(equity, leverage))
  {}

  lemma QuantityScales(notional: real, price: real, k: real)
    requires k > 0.0 && price > 0.0
    ensures QuantityFor(Times(k, notional), price) == Times(k, QuantityFor(notional, price))
  {}

  lemma SizesScale(cfg: Config, priceA: real, priceB: real, ratio: real, k: real)
    requires k >= 1.0 && cfg.risk.leverage >= 1.0 && priceA > 0.0
    ensures var (x, y) := Sizes(cfg, priceA, priceB, ratio);
            Sizes(GearedRisk(cfg, k), priceA, priceB, ratio) == (Times(k, x), Times(k, y))
  {
    hide LeveragedNotional, QuantityFor, InitialMargin, HedgeQuantity, ExposureCap, JointNotional, CapFactor, Shrink,
      NonNegative, Times;
    var lev, equity := cfg.risk.leverage, cfg.initialCapital;
    LeverageScales(equity, cfg.sizePct, lev, k);
    QuantityScales(LeveragedNotional(equity, cfg.sizePct, lev), priceA, k);
    var qtyA := SizeLeveragedOrder(equity, cfg.sizePct, lev, priceA).quantity;
    var qtyB := HedgeQuantity(ratio, qtyA);
    HedgeQuantityScales(ratio, qtyA, k);
    NonNegativeScales(qtyA, k);
    NonNegativeScales(qtyB, k);
    var a, b := NonNegative(qtyA), NonNegative(qtyB);
    JointNotionalScales(a, NonNegative(priceA), b, NonNegative(priceB), k);
    var combined, cap := JointNotional(a, NonNegative(priceA), b, NonNegative(priceB)), ExposureCap(equity, lev);
    CapFactorIsScaleFree(combined, cap, k);
    ShrinkScales(a, CapFactor(combined, cap), k);
    ShrinkScales(b, CapFactor(combined, cap), k);
  }

  lemma ExposureGrows(k: real, quantity: real, drift: real)
    requires k >= 1.0
    ensures Exposure(Times(k, quantity), drift) >= Exposure(quantity, drift)
  {}

  /** A gate that stays quiet at the higher leverage stays quiet at the lower one. */
  lemma GateIsMonotone(cfg: Config, priceA: real, priceB: real, ratio: real, baseline: Option<real>, k: real)
    requires k >= 1.0 && cfg.risk.leverage >= 1.0 && priceA > 0.0
    requires ExceedsRiskLimit(cfg, priceA, priceB, ratio, baseline)
    ensures ExceedsRiskLimit(GearedRisk(cfg, k), priceA, priceB, ratio, baseline)
  {
    hide Sizes, Times, Abs, Exposure;
    SizesScale(cfg, priceA, priceB, ratio, k);
    assert RiskBudget(GearedRisk(cfg, k)) == RiskBudget(cfg);
    ExposureGrows(k, Sizes(cfg, priceA, priceB, ratio).0, Spread(priceA, priceB, Abs(ratio)) - baseline.value);
  }

  lemma EntryPriceNonNegative(side: Side, quantity: real, mid: real, fee: LegFee)
    requires mid > 0.0 && -10000.0 <= fee.slippageBps <= 10000.0
    ensures OpenLeg(side, quantity, mid, fee).entryPrice >= 0.0
  {}

  lemma EntryScales(m: Market, t: nat, signal: int, k: real)
    requires m.Covers(t + 1) && Geared(m, k).Covers(t + 1) && Gearable(m, k)
    requires !EntryEvent(Geared(m, k), t, signal).RiskLimit?
    ensures EntryEvent(Geared(m, k), t, signal) == ScaleEvent(EntryEvent(m, t, signal), k)
    ensures var e := EntryEvent(m, t, signal);
            e.NoData? || (e.Entered? && NonNegativeEntries(Some(e.position)))
  {
    hide SpreadSum, Sizes, ExceedsRiskLimit, OpenLeg, ScaleLeg, Times;
    if m.Tradable(t) && HedgeRatio(m, t).Some? {
      var priceA, priceB := m.a.prices[t].value, m.b.prices[t].value;
      var ratio := HedgeRatio(m, t).value;
      var baseline := RollingSpreadMean(m, Abs(ratio), t);
      if ExceedsRiskLimit(m.cfg, priceA, priceB, ratio, baseline) {
        GateIsMonotone(m.cfg, priceA, priceB, ratio, baseline, k);
      }
      SizesScale(m.cfg, priceA, priceB, ratio, k);
      var (qtyA, qtyB) := Sizes(m.cfg, priceA, priceB, ratio);
      var side := if signal == ENTER_LONG then Long else Short;
      OpenLegScales(side, qtyA, priceA, m.feeA, k);
      OpenLegScales(side.Opposite(), qtyB, priceB, m.feeB, k);
      EntryPriceNonNegative(side, qtyA, priceA, m.feeA);
      EntryPriceNonNegative(side.Opposite(), qtyB, priceB, m.feeB);
    }
  }

  lemma BreachIsMonotone(leg: Leg, low: real, high: real, risk: Risk, k: real)
    requires k >= 1.0 && risk.leverage >= 1.0 && leg.entryPrice >= 0.0
    requires Breached(leg, low, high, risk)
    ensures Breached(ScaleLeg(leg, k), low, high, risk.(leverage := Times(k, risk.leverage)))
  {}

  /** A pair that survives the tick at the higher leverage survives it at the lower one. */
  lemma SurvivalIsMonotone(m: Market, t: nat, p: Position, k: real)
    requires m.Covers(t + 1) && Geared(m, k).Covers(t + 1) && Gearable(m, k) && NonNegativeEntries(Some(p))
    requires MarginCalled(m, t, p)
    ensures MarginCalled(Geared(m, k), t, ScalePosition(p, k))
  {
    hide Breached, ScaleLeg;
    var lev := m.cfg.risk.leverage;
    ScaleKeepsOrder(lev, 1.0, k);
    if Breaches(m, t, p).0 {
      BreachIsMonotone(p.legA, m.a.lows[t].value, m.a.highs[t].value, m.cfg.risk, k);
    } else {
      BreachIsMonotone(p.legB, m.b.lows[t].value, m.b.highs[t].value, m.cfg.risk, k);
    }
  }

  lemma CloseIgnoresRisk(m: Market, t: nat, p: Position, baseA: real, baseB: real, id: nat, k: real)
    requires m.Covers(t + 1) && Geared(m, k).Covers(t + 1)
    ensures CloseAt(Geared(m, k), t, p, baseA, baseB, CloseSignal, id) ==
            CloseAt(m, t, p, baseA, baseB, CloseSignal, id)
  {}

  lemma MarkIgnoresRisk(m: Market, t: nat, open: Option<Position>, k: real)
    requires m.Covers(t + 1) && Geared(m, k).Covers(t + 1)
    ensures Mark(Geared(m, k), t, open) == Mark(m, t, open)
  {}

  lemma DecideScales(m: Market, t: nat, signal: int, open: Option<Position>, id: nat, k: real)
    requires m.Feeds(t + 1) && Geared(m, k).Feeds(t + 1) && Gearable(m, k) && NonNegativeEntries(open)
    requires var e' := Decide(Geared(m, k), t, signal, ScaleOpen(open, k), id); !e'.Called? && !e'.RiskLimit?
    ensures Decide(Geared(m, k), t, signal, ScaleOpen(open, k), id) == ScaleEvent(Decide(m, t, signal, open, id), k)
    ensures var e := Decide(m, t, signal, open, id);
            !e.Called? && !e.RiskLimit? && (e.Entered? ==> NonNegativeEntries(Some(e.position)))
  {
    hide EntryEvent, CloseAt, MarginCalled, ScaleTrade, ScalePosition, NonNegativeEntries, Times;
    if open.Some? {
      if MarginCalled(m, t, open.value) {
        SurvivalIsMonotone(m, t, open.value, k);
      }
      if m.Tradable(t) {
        var priceA, priceB := m.a.prices[t].value, m.b.prices[t].value;
        CloseScales(m, t, open.value, priceA, priceB, id, k);
        CloseIgnoresRisk(m, t, ScalePosition(open.value, k), priceA, priceB, id, k);
      }
    } else if IsEntrySignal(signal) {
      EntryScales(m, t, signal, k);
    }
  }

  lemma ScalePost(b: Book<Position>, e: Event<Position>, initial: real, mark: real, k: real)
    ensures Post(ScaleBook(b, initial, k), ScaleEvent(e, k), initial, Times(k, mark)) ==
            ScaleBook(Post(b, e, initial, mark), initial, k)
    ensures Record(ScaleBook(b, initial, k), ScaleEvent(e, k)).open == ScaleOpen(Record(b, e).open, k)
  {
    hide ScaleLeg, ScalePosition, Times;
    var left, right := Post(ScaleBook(b, initial, k), ScaleEvent(e, k), initial, Times(k, mark)),
                       ScaleBook(Post(b, e, initial, mark), initial, k);
    if e.Closed? || e.Called? {
      TimesAdds(k, b.realized, e.trade.pnl);
    }
    assert left.trades == right.trades;
    TimesAdds(k, Record(b, e).realized, mark);
    assert initial + Record(b, e).realized + mark - initial == Record(b, e).realized + mark;
    assert left.equity == right.equity;
  }

  lemma ScaleEmpty(initial: real, k: real)
    ensures EmptyBook() == ScaleBook(EmptyBook(), initial, k)
    ensures NonNegativeEntries(None)
  {}

  lemma ScaleBookFields(b: Book<Position>, initial: real, k: real)
    ensures ScaleBook(b, initial, k).open == ScaleOpen(b.open, k) && ScaleBook(b, initial, k).nextId == b.nextId
    ensures ScaleBook(b, initial, k).liquidations == b.liquidations
    ensures ScaleBook(b, initial, k).rejectedRisk == b.rejectedRisk
  {}

  lemma StepScales(m: Market, t: nat, signal: int, b: Book<Position>, k: real)
    requires m.Feeds(t + 1) && Geared(m, k).Feeds(t + 1) && Gearable(m, k) && NonNegativeEntries(b.open)
    requires var b' := Step(Geared(m, k), t, signal, ScaleBook(b, m.cfg.initialCapital, k));
             b'.liquidations == b.liquidations && b'.rejectedRisk == b.rejectedRisk
    ensures Step(Geared(m, k), t, signal, ScaleBook(b, m.cfg.initialCapital, k)) ==
            ScaleBook(Step(m, t, signal, b), m.cfg.initialCapital, k)
    ensures var next := Step(m, t, signal, b);
            && next.liquidations == b.liquidations && next.rejectedRisk == b.rejectedRisk
            && NonNegativeEntries(next.open)
  {
    hide Decide, Mark, ScaleBook, ScaleEvent, ScaleOpen, Times, SaneSlippage;
    ScaleBookFields(b, m.cfg.initialCapital, k);
    DecideScales(m, t, signal, b.open, b.nextId, k);
    var e := Decide(m, t, signal, b.open, b.nextId);
    MarkScales(m, t, Record(b, e).open, k);
    MarkIgnoresRisk(m, t, ScaleOpen(Record(b, e).open, k), k);
    ScalePost(b, e, m.cfg.initialCapital, Mark(m, t, Record(b, e).open), k);
  }

  /**
   * If the run at `k` times the leverage is never stopped by the risk gate or a margin call, then neither is the
   * original run, and it is that run with every size, cost, profit and equity move multiplied by `k`.
   */
  lemma {:induction false} LeverageScalesRun(m: Market, signals: seq<int>, n: nat, k: real)
    requires n <= |signals| && m.Feeds(n) && Geared(m, k).Feeds(n) && Gearable(m, k)
    requires Run(Geared(m, k), signals, n).liquidations == 0 && Run(Geared(m, k), signals, n).rejectedRisk == 0
    ensures Run(Geared(m, k), signals, n) == ScaleBook(Run(m, signals, n), m.cfg.initialCapital, k)
    ensures Run(m, signals, n).liquidations == 0 && Run(m, signals, n).rejectedRisk == 0
    ensures NonNegativeEntries(Run(m, signals, n).open)
  {
    hide Step, ScaleBook, Times, SaneSlippage, NonNegativeEntries;
    if n == 0 {
      ScaleEmpty(m.cfg.initialCapital, k);
    } else {
      RunExtends(Geared(m, k), signals, n - 1, n);
      LeverageScalesRun(m, signals, n - 1, k);
      ScaleBookFields(Run(m, signals, n - 1), m.cfg.initialCapital, k);
      StepScales(m, n - 1, signals[n - 1], Run(m, signals, n - 1), k);
    }
  }
}
