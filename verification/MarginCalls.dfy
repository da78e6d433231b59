/** What a margin call costs, in every engine (portfoliomanager/src/margin.rs and the engines in backtest/src). */
module MarginCalls {
  import opened Reals
  import opened Margin
  import opened Legs
  import opened TickBook
  import opened CandleLedger
  import opened CandleSim
  import opened CandleRules
  import Pairs
  import Baskets

  /** Maintenance within the notional, and a penalty. */
  predicate SaneRisk(risk: Risk) {
    risk.leverage > 1.0 && 0.0 <= risk.maintenance <= 1.0 && risk.penaltyBps >= 0.0
  }

  /** A larger penalty on the same terms. */
  predicate Harsher(risk: Risk, harsh: Risk) {
    SaneRisk(risk) && harsh == risk.(penaltyBps := harsh.penaltyBps) && harsh.penaltyBps >= risk.penaltyBps
  }

  predicate SaneLeg(leg: Leg) {
    leg.entryPrice >= 0.0 && leg.quantity >= 0.0
  }

  /** Fees that take at most the whole notional. */
  predicate PayableFee(fee: LegFee) {
    FairFee(fee) && fee.takerFee <= 1.0
  }

  lemma TriggerIsNonNegative(entry: real, side: Side, leverage: real, maintenance: real)
    requires entry >= 0.0 && leverage > 1.0 && 0.0 <= maintenance <= 1.0
    ensures LiquidationPrice(entry, side, leverage, maintenance).price >= 0.0
    ensures entry > 0.0 ==> LiquidationPrice(entry, side, leverage, maintenance).price > 0.0
  {
    var ratio := 1.0 / leverage;
    QuotientTimesDivisor(1.0, leverage);
    InverseInUnit(ratio, leverage);
    TriggerSign(entry, side, ratio, maintenance);
  }

  lemma InverseInUnit(ratio: real, leverage: real)
    requires leverage > 1.0 && ratio * leverage == 1.0
    ensures 0.0 < ratio < 1.0
  {}

  lemma TriggerSign(entry: real, side: Side, ratio: real, maintenance: real)
    requires entry >= 0.0 && 0.0 < ratio < 1.0 && 0.0 <= maintenance <= 1.0
    ensures Trigger(entry, side, ratio, maintenance) >= 0.0
    ensures entry > 0.0 ==> Trigger(entry, side, ratio, maintenance) > 0.0
  {
    var factor := if side == Long then 1.0 - ratio + maintenance else 1.0 + ratio - maintenance;
    assert Trigger(entry, side, ratio, maintenance) == Times(entry, factor);
    TimesSign(entry, factor);
  }

  lemma TimesSign(x: real, y: real)
    requires x >= 0.0 && y > 0.0
    ensures Times(x, y) >= 0.0 && (x > 0.0 ==> Times(x, y) > 0.0)
  {}

  // ---- One leg ----

  /** The trigger price of a leg. */
  function TriggerOf(leg: Leg, risk: Risk): real
    requires risk.leverage > 1.0
  {
    LiquidationPrice(leg.entryPrice, leg.side, risk.leverage, risk.maintenance).price
  }

  /** A breached leg leaves at a price no better than its trigger, a surviving one at the tick's own price. */
  lemma CalledLegLosesPenalty(leg: Leg, price: real, risk: Risk)
    requires SaneRisk(risk) && SaneLeg(leg)
    ensures CallBase(leg, false, price, risk) == price
    ensures var trigger, base := TriggerOf(leg, risk), CallBase(leg, true, price, risk);
            && trigger >= 0.0 && NoBetter(leg.side, base, trigger)
            && Improvement(leg.side, trigger, base) == -(Times(trigger, risk.penaltyBps) / 10000.0)
  {
    TriggerIsNonNegative(leg.entryPrice, leg.side, risk.leverage, risk.maintenance);
    PenaltyIsLoss(TriggerOf(leg, risk), leg.side, risk.penaltyBps);
  }

  lemma PnlMoves(leg: Leg, mark: real, to: real)
    ensures SignedPnl(leg, to) == SignedPnl(leg, mark) + Times(leg.quantity, Improvement(leg.side, mark, to))
  {}

  /**
   * What is left of a breached leg's posted margin, before fees, is the maintenance requirement less the penalty: the
   * penalty's share of the trigger, on the leg's quantity.
   */
  lemma CalledLegLeavesMaintenance(leg: Leg, price: real, risk: Risk)
    requires SaneRisk(risk) && SaneLeg(leg)
    ensures var base, notional := CallBase(leg, true, price, risk), leg.quantity * leg.entryPrice;
            var penalty := Times(leg.quantity, Times(TriggerOf(leg, risk), risk.penaltyBps) / 10000.0);
            && penalty >= 0.0
            && InitialMargin(notional, risk.leverage) + SignedPnl(leg, base) == risk.maintenance * notional - penalty
  {
    var trigger, base := TriggerOf(leg, risk), CallBase(leg, true, price, risk);
    CalledLegLosesPenalty(leg, price, risk);
    TriggerLeavesMaintenanceMargin(leg.quantity, leg.entryPrice, leg.side, risk.leverage, risk.maintenance);
    PnlMoves(leg, trigger, base);
    hide LiquidationPenalty, LiquidationPrice, InitialMargin, Times, Improvement;
    var cost := Times(trigger, risk.penaltyBps) / 10000.0;
    PenaltyShare(trigger, risk.penaltyBps, leg.quantity);
  }

  lemma PenaltyShare(trigger: real, penaltyBps: real, quantity: real)
    requires trigger >= 0.0 && penaltyBps >= 0.0 && quantity >= 0.0
    ensures var cost := Times(trigger, penaltyBps) / 10000.0;
            cost >= 0.0 && Times(quantity, cost) >= 0.0 && Times(quantity, -cost) == -Times(quantity, cost)
  {
    ProductOfNonNegatives(trigger, penaltyBps);
    ProductOfNonNegatives(quantity, Times(trigger, penaltyBps) / 10000.0);
  }

  // ---- The penalty never helps ----

  lemma HarsherBaseIsWorse(leg: Leg, hit: bool, price: real, risk: Risk, harsh: Risk)
    requires Harsher(risk, harsh) && SaneLeg(leg)
    ensures NoBetter(leg.side, CallBase(leg, hit, price, harsh), CallBase(leg, hit, price, risk))
  {
    if hit {
      TriggerIsNonNegative(leg.entryPrice, leg.side, risk.leverage, risk.maintenance);
      hide LiquidationPrice;
      HarsherPenalty(TriggerOf(leg, risk), leg.side, risk.penaltyBps, harsh.penaltyBps);
    }
  }

  lemma HarsherPenalty(trigger: real, side: Side, penaltyBps: real, harshBps: real)
    requires trigger >= 0.0 && penaltyBps <= harshBps
    ensures NoBetter(side, LiquidationPenalty(trigger, side, harshBps), LiquidationPenalty(trigger, side, penaltyBps))
  {
    ScaleKeepsOrder(trigger, 1.0 - harshBps / 10000.0, 1.0 - penaltyBps / 10000.0);
    ScaleKeepsOrder(trigger, 1.0 + penaltyBps / 10000.0, 1.0 + harshBps / 10000.0);
  }

  /** Leaving at a worse price never nets more, slippage and commission included. */
  lemma WorseExitNetsLess(leg: Leg, better: real, worse: real, fee: LegFee)
    requires leg.quantity >= 0.0 && PayableFee(fee) && NoBetter(leg.side, worse, better)
    ensures NetPnl(leg, ExitFill(leg, worse, fee)) <= NetPnl(leg, ExitFill(leg, better, fee))
  {
    match leg.side
    case Long =>
      LongExit(leg, worse, fee);
      LongExit(leg, better, fee);
      NetShareIsNonNegative(leg.quantity, 1.0 - fee.slippageBps / 10000.0, 1.0 - fee.takerFee);
      hide ExitFill, NetPnl, NetShare, Times;
      TimesKeepsOrder(NetShare(leg.quantity, 1.0 - fee.slippageBps / 10000.0, 1.0 - fee.takerFee), worse, better);
    case Short =>
      ShortExit(leg, worse, fee);
      ShortExit(leg, better, fee);
      NetShareIsNonNegative(leg.quantity, 1.0 + fee.slippageBps / 10000.0, 1.0 + fee.takerFee);
      hide ExitFill, NetPnl, NetShare, Times;
      TimesKeepsOrder(NetShare(leg.quantity, 1.0 + fee.slippageBps / 10000.0, 1.0 + fee.takerFee), better, worse);
  }

  /** What a quantity brings in, or costs, a unit of base price. */
  function NetShare(quantity: real, slip: real, fee: real): real {
    quantity * (slip * fee)
  }

  lemma NetShareIsNonNegative(quantity: real, slip: real, fee: real)
    requires quantity >= 0.0 && slip >= 0.0 && fee >= 0.0
    ensures NetShare(quantity, slip, fee) >= 0.0
  {
    ProductOfNonNegatives(slip, fee);
    ProductOfNonNegatives(quantity, slip * fee);
  }

  lemma LongExit(leg: Leg, base: real, fee: LegFee)
    requires leg.side == Long
    ensures NetPnl(leg, ExitFill(leg, base, fee))
            == Times(NetShare(leg.quantity, 1.0 - fee.slippageBps / 10000.0, 1.0 - fee.takerFee), base)
               - leg.entryPrice * leg.quantity - leg.entryCommission
  {
    ExitAlgebra(leg.quantity, base, 1.0 - fee.slippageBps / 10000.0, -fee.takerFee);
  }

  lemma ShortExit(leg: Leg, base: real, fee: LegFee)
    requires leg.side == Short
    ensures NetPnl(leg, ExitFill(leg, base, fee))
            == leg.entryPrice * leg.quantity - leg.entryCommission
               - Times(NetShare(leg.quantity, 1.0 + fee.slippageBps / 10000.0, 1.0 + fee.takerFee), base)
  {
    ExitAlgebra(leg.quantity, base, 1.0 + fee.slippageBps / 10000.0, fee.takerFee);
  }

  lemma ExitAlgebra(quantity: real, base: real, slip: real, fee: real)
    ensures base * slip * quantity + base * slip * quantity * fee == Times(NetShare(quantity, slip, 1.0 + fee), base)
  {}

  // ---- The engines ----

  function HarsherPair(m: Pairs.Market, harsh: Risk): Pairs.Market {
    m.(cfg := m.cfg.(risk := harsh))
  }

  /** Raising the penalty calls the same pairs and never leaves a called one with more. */
  lemma PairPenaltyNeverHelps(m: Pairs.Market, harsh: Risk, t: nat, p: Pairs.Position, id: nat)
    requires m.Feeds(t + 1) && Pairs.MarginCalled(m, t, p) && Harsher(m.cfg.risk, harsh)
    requires SaneLeg(p.legA) && SaneLeg(p.legB) && PayableFee(m.feeA) && PayableFee(m.feeB)
    ensures HarsherPair(m, harsh).Feeds(t + 1) && Pairs.MarginCalled(HarsherPair(m, harsh), t, p)
    ensures Pairs.CallTrade(HarsherPair(m, harsh), t, p, id).pnl <= Pairs.CallTrade(m, t, p, id).pnl
  {
    hide CallBase, ExitFill, NetPnl, ReturnOnNotional, SaneLeg, PayableFee;
    var (hitA, hitB) := Pairs.Breaches(m, t, p);
    var priceA, priceB := m.a.prices[t].value, m.b.prices[t].value;
    assert Pairs.Breaches(HarsherPair(m, harsh), t, p) == (hitA, hitB);
    CalledNetsLess(p.legA, hitA, priceA, m.cfg.risk, harsh, m.feeA);
    CalledNetsLess(p.legB, hitB, priceB, m.cfg.risk, harsh, m.feeB);
  }

  lemma CalledNetsLess(leg: Leg, hit: bool, price: real, risk: Risk, harsh: Risk, fee: LegFee)
    requires Harsher(risk, harsh) && SaneLeg(leg) && PayableFee(fee)
    ensures NetPnl(leg, ExitFill(leg, CallBase(leg, hit, price, harsh), fee))
         <= NetPnl(leg, ExitFill(leg, CallBase(leg, hit, price, risk), fee))
  {
    HarsherBaseIsWorse(leg, hit, price, risk, harsh);
    WorseExitNetsLess(leg, CallBase(leg, hit, price, risk), CallBase(leg, hit, price, harsh), fee);
  }

  lemma {:induction false} SumKeepsOrder(xs: seq<real>, ys: seq<real>)
    requires |xs| == |ys| && forall i :: 0 <= i < |xs| ==> xs[i] <= ys[i]
    ensures Sum(xs) <= Sum(ys)
  {
    if xs != [] {
      SumKeepsOrder(xs[..|xs| - 1], ys[..|ys| - 1]);
    }
  }

  function HarsherBasket(m: Baskets.Market, harsh: Risk): Baskets.Market {
    m.(cfg := m.cfg.(risk := harsh))
  }

  /** The same for any number of legs. */
  lemma BasketPenaltyNeverHelps(m: Baskets.Market, harsh: Risk, t: nat, p: Baskets.Position, id: nat)
    requires m.Feeds(t + 1) && |p.legs| == |m.venues| && Baskets.MarginCalled(m, t, p) && Harsher(m.cfg.risk, harsh)
    requires forall i :: 0 <= i < |p.legs| ==> SaneLeg(p.legs[i]) && PayableFee(m.fees[i])
    ensures HarsherBasket(m, harsh).Feeds(t + 1) && Baskets.MarginCalled(HarsherBasket(m, harsh), t, p)
    ensures Baskets.CallTrade(HarsherBasket(m, harsh), t, p, id).pnl <= Baskets.CallTrade(m, t, p, id).pnl
  {
    hide CallBase, ExitFill, NetPnl, ReturnOnNotional, SaneLeg, PayableFee, Sum;
    var m' := HarsherBasket(m, harsh);
    BasketTickAlike(m, harsh, t);
    var hits, prices := Baskets.Breaches(m, t, p), m.Prices(t);
    assert Baskets.Breaches(m', t, p) == hits;
    var bases, bases' := Baskets.CallBases(p, hits, prices, m.cfg.risk), Baskets.CallBases(p, hits, prices, harsh);
    forall i | 0 <= i < |p.legs|
      ensures NetPnl(p.legs[i], ExitFill(p.legs[i], bases'[i], m.fees[i]))
           <= NetPnl(p.legs[i], ExitFill(p.legs[i], bases[i], m.fees[i]))
    {
      CalledNetsLess(p.legs[i], hits[i], prices[i], m.cfg.risk, harsh, m.fees[i]);
    }
    SumKeepsOrder(Baskets.NetPnls(p.legs, Baskets.ExitFills(p.legs, bases', m.fees)),
                  Baskets.NetPnls(p.legs, Baskets.ExitFills(p.legs, bases, m.fees)));
  }

  lemma BasketTickAlike(m: Baskets.Market, harsh: Risk, t: nat)
    requires m.Feeds(t + 1) && Harsher(m.cfg.risk, harsh)
    ensures HarsherBasket(m, harsh).Feeds(t + 1)
    ensures HarsherBasket(m, harsh).ExtremesKnown(t) == m.ExtremesKnown(t)
    ensures m.PricesKnown(t) ==> HarsherBasket(m, harsh).Prices(t) == m.Prices(t)
  {
    var m' := HarsherBasket(m, harsh);
    forall k | 0 <= k < t + 1
      ensures m'.ExtremesKnown(k) == m.ExtremesKnown(k) && m'.PricesKnown(k) == m.PricesKnown(k)
    {}
  }

  // ---- The candle ledger ----

  predicate CalledOnBar(cfg: CandleLedger.Config, bar: Bar, acct: Account) {
    var side := SideOf(acct.quantity);
    acct.quantity != 0.0
    && IsLiquidated(if side == Long then bar.low else bar.high, acct.entry, side, cfg.leverage, cfg.maintenance)
  }

  lemma UnrealizedMoves(quantity: real, entry: real, mark: real, exit: real)
    ensures Unrealized(quantity, entry, exit)
            == Unrealized(quantity, entry, mark) + Times(Abs(quantity), Improvement(SideOf(quantity), mark, exit))
  {}

  lemma CandleTrigger(quantity: real, entry: real, leverage: real, maintenance: real)
    requires leverage > 1.0 && quantity != 0.0
    ensures var side := SideOf(quantity);
            var trigger := LiquidationPrice(entry, side, leverage, maintenance).price;
            InitialMargin(Value(Abs(quantity), entry), leverage) + Unrealized(quantity, entry, trigger)
            == maintenance * Value(Abs(quantity), entry)
  {
    TriggerLeavesMaintenanceMargin(Abs(quantity), entry, SideOf(quantity), leverage, maintenance);
  }

  /**
   * A liquidated candle account gets back at most the maintenance requirement of its position: the penalty, the costs
   * of the fill and the commission only take from it.
   */
  lemma LiquidationReturnsAtMostMaintenance(cfg: CandleLedger.Config, bar: Bar, avgVolume: real, s: State)
    requires SaneCosts(cfg) && SaneBar(bar) && Posted(s.acct, cfg.leverage) && CalledOnBar(cfg, bar, s.acct)
    requires 0.0 <= cfg.maintenance <= 1.0 && 0.0 <= cfg.penaltyBps < 10000.0 && s.stats.rate >= 0.0
    ensures var after := LiquidateIfCalled(cfg, bar, avgVolume, s);
            && after.stats.liquidations == s.stats.liquidations + 1 && after.acct.quantity == 0.0
            && after.acct.cash <= s.acct.cash + cfg.maintenance * Value(Abs(s.acct.quantity), s.acct.entry)
  {
    hide CalledBase, FillCosts, SaneCosts, SaneBar, Posted, CalledOnBar, LiquidateIfCalled, CandleLedger.Closed, Value,
      NoBetter, LiquidationPrice, SideOf;
    BaseIsBeyondTrigger(cfg, bar, s.acct);
    var base, fill := CalledBase(cfg, s.acct), CalledFill(cfg, bar, avgVolume, s.acct);
    var side := SideOf(s.acct.quantity);
    ExitAtCost(cfg, base, bar, avgVolume, s.acct.quantity);
    assert NoBetter(side, fill, base);
    NoBetterIsTransitive(side, fill, base, LiquidationPrice(s.acct.entry, side, cfg.leverage, cfg.maintenance).price);
    ExitBeyondTrigger(s.acct, cfg.leverage, cfg.maintenance, fill, s.stats.rate);
    CalledCloses(cfg, bar, avgVolume, s);
  }

  /** Where a called position starts closing: its penalised trigger. */
  function CalledBase(cfg: CandleLedger.Config, acct: Account): real
    requires cfg.leverage > 1.0
  {
    var side := SideOf(acct.quantity);
    LiquidationPenalty(LiquidationPrice(acct.entry, side, cfg.leverage, cfg.maintenance).price, side, cfg.penaltyBps)
  }

  function CalledFill(cfg: CandleLedger.Config, bar: Bar, avgVolume: real, acct: Account): real
    requires cfg.leverage > 1.0
  {
    var base := CalledBase(cfg, acct);
    FillCosts(cfg, base, acct.quantity <= 0.0, bar, avgVolume, Value(Abs(acct.quantity), base), false).price
  }

  lemma CalledCloses(cfg: CandleLedger.Config, bar: Bar, avgVolume: real, s: State)
    requires CalledOnBar(cfg, bar, s.acct)
    ensures var after, fill := LiquidateIfCalled(cfg, bar, avgVolume, s), CalledFill(cfg, bar, avgVolume, s.acct);
            && after.stats.liquidations == s.stats.liquidations + 1
            && after.acct == CandleLedger.Closed(s.acct, fill, Value(Value(Abs(s.acct.quantity), fill), s.stats.rate))
  {
    hide FillCosts, IsLiquidated, LiquidationPrice, LiquidationPenalty, Unrealized, Value, CandleLedger.Closed, Abs;
  }

  /** A called position starts closing from a positive price, no better than its trigger. */
  lemma BaseIsBeyondTrigger(cfg: CandleLedger.Config, bar: Bar, acct: Account)
    requires Posted(acct, cfg.leverage) && CalledOnBar(cfg, bar, acct)
    requires 0.0 <= cfg.maintenance <= 1.0 && 0.0 <= cfg.penaltyBps < 10000.0
    ensures var side := SideOf(acct.quantity);
            var trigger := LiquidationPrice(acct.entry, side, cfg.leverage, cfg.maintenance).price;
            var base := CalledBase(cfg, acct);
            acct.quantity != 0.0 && cfg.leverage > 1.0 && base > 0.0 && NoBetter(side, base, trigger)
  {
    var side := SideOf(acct.quantity);
    var trigger := LiquidationPrice(acct.entry, side, cfg.leverage, cfg.maintenance).price;
    TriggerIsNonNegative(acct.entry, side, cfg.leverage, cfg.maintenance);
    PenaltyIsLoss(trigger, side, cfg.penaltyBps);
    PenaltyKeepsSign(trigger, side, cfg.penaltyBps);
  }

  lemma NoBetterIsTransitive(side: Side, x: real, y: real, z: real)
    requires NoBetter(side, x, y) && NoBetter(side, y, z)
    ensures NoBetter(side, x, z)
  {}

  /** An account closed no better than at its trigger gets back at most its maintenance requirement. */
  lemma ExitBeyondTrigger(acct: Account, leverage: real, maintenance: real, fill: real, rate: real)
    requires Posted(acct, leverage) && acct.quantity != 0.0 && leverage > 1.0 && fill > 0.0 && rate >= 0.0
    requires var side := SideOf(acct.quantity);
             NoBetter(side, fill, LiquidationPrice(acct.entry, side, leverage, maintenance).price)
    ensures var commission := Value(Value(Abs(acct.quantity), fill), rate);
            var after := CandleLedger.Closed(acct, fill, commission);
            && after.quantity == 0.0
            && after.cash <= acct.cash + maintenance * Value(Abs(acct.quantity), acct.entry)
  {
    var quantity, side := acct.quantity, SideOf(acct.quantity);
    var trigger := LiquidationPrice(acct.entry, side, leverage, maintenance).price;
    CandleTrigger(quantity, acct.entry, leverage, maintenance);
    hide LiquidationPrice, InitialMargin, Times, Unrealized, Value;
    UnrealizedMoves(quantity, acct.entry, trigger, fill);
    LossSign(Abs(quantity), Improvement(side, trigger, fill));
    CommissionIsNonNegative(quantity, fill, rate);
  }

  /** Closing a position fills at a positive price no better than its base. */
  lemma ExitAtCost(cfg: CandleLedger.Config, base: real, bar: Bar, avgVolume: real, quantity: real)
    requires SaneCosts(cfg) && SaneBar(bar) && base > 0.0 && quantity != 0.0
    ensures var value := Value(Abs(quantity), base);
            var fill := FillCosts(cfg, base, quantity <= 0.0, bar, avgVolume, value, false).price;
            fill > 0.0 && NoBetter(SideOf(quantity), fill, base)
  {
    hide FillCosts, SaneCosts, SaneBar;
    var value := Value(Abs(quantity), base);
    ProductOfNonNegatives(Abs(quantity), base);
    CostsGrowWithSize(cfg, base, quantity <= 0.0, bar, avgVolume, value, value, false);
    FillIsPositive(cfg, base, quantity <= 0.0, bar, avgVolume, value, false);
  }

  lemma PenaltyKeepsSign(trigger: real, side: Side, penaltyBps: real)
    requires trigger > 0.0 && 0.0 <= penaltyBps < 10000.0
    ensures LiquidationPenalty(trigger, side, penaltyBps) > 0.0
  {
    ProductOfPositives(trigger, 1.0 - penaltyBps / 10000.0);
    ProductOfPositives(trigger, 1.0 + penaltyBps / 10000.0);
  }

  lemma LossSign(quantity: real, improvement: real)
    requires quantity >= 0.0 && improvement <= 0.0
    ensures Times(quantity, improvement) <= 0.0
  {
    ScaleKeepsOrder(quantity, improvement, 0.0);
  }

  lemma CommissionIsNonNegative(quantity: real, fill: real, rate: real)
    requires fill > 0.0 && rate >= 0.0
    ensures Value(Value(Abs(quantity), fill), rate) >= 0.0
  {
    ProductOfNonNegatives(Abs(quantity), fill);
    ProductOfNonNegatives(Abs(quantity) * fill, rate);
  }

  // ---- When a call happens ----

  /** A bar that trades at a leg's trigger breaches it, one that stays on its safe side does not. */
  lemma TriggerDecides(leg: Leg, low: real, high: real, risk: Risk)
    requires risk.leverage > 1.0 && low <= high
    ensures low <= TriggerOf(leg, risk) <= high ==> Breached(leg, low, high, risk)
    ensures (if leg.side == Long then low > TriggerOf(leg, risk) else high < TriggerOf(leg, risk)) ==>
              !Breached(leg, low, high, risk)
  {}

  /** A pair is called when either leg's own range reaches its trigger, and only then. */
  lemma PairCalledByEitherLeg(m: Pairs.Market, t: nat, p: Pairs.Position)
    requires m.Covers(t + 1) && m.Leveraged() && m.ExtremesKnown(t)
    requires m.a.lows[t].value <= m.a.highs[t].value && m.b.lows[t].value <= m.b.highs[t].value
    ensures ReachesTrigger(p.legA, m.a, t, m.cfg.risk) ==> Pairs.MarginCalled(m, t, p)
    ensures ReachesTrigger(p.legB, m.b, t, m.cfg.risk) ==> Pairs.MarginCalled(m, t, p)
    ensures SafeFrom(p.legA, m.a, t, m.cfg.risk) && SafeFrom(p.legB, m.b, t, m.cfg.risk) ==>
            !Pairs.MarginCalled(m, t, p)
  {
    hide Breached, LiquidationPrice;
    TriggerDecides(p.legA, m.a.lows[t].value, m.a.highs[t].value, m.cfg.risk);
    TriggerDecides(p.legB, m.b.lows[t].value, m.b.highs[t].value, m.cfg.risk);
  }

  /** The leg's own bar trades at its trigger. */
  predicate ReachesTrigger(leg: Leg, venue: Venue, t: nat, risk: Risk)
    requires t < |venue.lows| && t < |venue.highs| && venue.lows[t].Price? && venue.highs[t].Price?
    requires risk.leverage > 1.0
  {
    venue.lows[t].value <= TriggerOf(leg, risk) <= venue.highs[t].value
  }

  /** The leg's own bar stays on the safe side of its trigger. */
  predicate SafeFrom(leg: Leg, venue: Venue, t: nat, risk: Risk)
    requires t < |venue.lows| && t < |venue.highs| && venue.lows[t].Price? && venue.highs[t].Price?
             && risk.leverage > 1.0
  {
    if leg.side == Long then venue.lows[t].value > TriggerOf(leg, risk) else venue.highs[t].value < TriggerOf(leg, risk)
  }

  /** A basket is called when any leg's own range reaches its trigger, and not while all stay on their safe sides. */
  lemma BasketCalledByAnyLeg(m: Baskets.Market, t: nat, p: Baskets.Position, i: nat)
    requires m.Covers(t + 1) && m.Leveraged() && m.ExtremesKnown(t) && |p.legs| == |m.venues|
    requires forall k :: 0 <= k < |m.venues| ==> m.venues[k].lows[t].value <= m.venues[k].highs[t].value
    ensures i < |p.legs| && ReachesTrigger(p.legs[i], m.venues[i], t, m.cfg.risk) ==> Baskets.MarginCalled(m, t, p)
    ensures (forall k :: 0 <= k < |p.legs| ==> SafeFrom(p.legs[k], m.venues[k], t, m.cfg.risk)) ==>
              !Baskets.MarginCalled(m, t, p)
  {
    hide Breached, LiquidationPrice;
    forall k | 0 <= k < |p.legs|
      ensures ReachesTrigger(p.legs[k], m.venues[k], t, m.cfg.risk) ==> Baskets.Breaches(m, t, p)[k]
      ensures SafeFrom(p.legs[k], m.venues[k], t, m.cfg.risk) ==> !Baskets.Breaches(m, t, p)[k]
    {
      TriggerDecides(p.legs[k], m.venues[k].lows[t].value, m.venues[k].highs[t].value, m.cfg.risk);
    }
  }

  /** A candle account is called when the bar trades at its trigger, and not while it stays on the safe side. */
  lemma CandleCalledAtTrigger(cfg: CandleLedger.Config, bar: Bar, avgVolume: real, s: State)
    requires cfg.leverage > 1.0 && bar.low <= bar.high && s.acct.quantity != 0.0
    ensures var trigger := LiquidationPrice(s.acct.entry, SideOf(s.acct.quantity), cfg.leverage, cfg.maintenance).price;
            var after := LiquidateIfCalled(cfg, bar, avgVolume, s);
            && (bar.low <= trigger <= bar.high ==> after.stats.liquidations == s.stats.liquidations + 1)
            && ((if s.acct.quantity > 0.0 then bar.low > trigger else bar.high < trigger) ==> after == s)
  {
    hide FillCosts, LiquidationPenalty, LiquidationPrice, Unrealized, Value;
  }
}
