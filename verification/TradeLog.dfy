/** What the trade logs of the multi-leg engines say about time, price and return. */
module TradeLog {
  import opened Reals
  import opened Margin
  import opened Legs
  import opened TickBook
  import Pairs
  import Baskets

  /** Each trade ends after it began, and before the next one begins. */
  predicate InOrder(trades: seq<Trade>) {
    && (forall i :: 0 <= i < |trades| ==> trades[i].entryTime < trades[i].exitTime)
    && forall i, j :: 0 <= i < j < |trades| ==> trades[i].exitTime < trades[j].entryTime
  }

  /** So far nothing began or ended after `now`, and an open position began after every trade ended. */
  predicate UpTo(trades: seq<Trade>, began: Option<int>, now: int) {
    && InOrder(trades)
    && (forall i :: 0 <= i < |trades| ==> trades[i].exitTime <= now)
    && (began.Some? ==> began.value <= now && forall i :: 0 <= i < |trades| ==> trades[i].exitTime < began.value)
  }

  predicate Increasing(times: seq<int>, n: nat) {
    forall i, j :: 0 <= i < j < n && j < |times| ==> times[i] < times[j]
  }

  lemma LaterIsUpTo(trades: seq<Trade>, began: Option<int>, now: int, later: int)
    requires UpTo(trades, began, now) && now <= later
    ensures UpTo(trades, began, later)
  {}

  lemma EnteredUpTo(trades: seq<Trade>, now: int, later: int)
    requires UpTo(trades, None, now) && now < later
    ensures UpTo(trades, Some(later), later)
  {}

  lemma ClosedUpTo(trades: seq<Trade>, began: int, now: int, trade: Trade)
    requires UpTo(trades, Some(began), now) && trade.entryTime == began && now < trade.exitTime
    ensures UpTo(trades + [trade], None, trade.exitTime)
  {}

  lemma NothingUpTo(now: int)
    ensures UpTo([], None, now)
  {}

  // ---- Pairs ----

  function PairBegan(open: Option<Pairs.Position>): Option<int> {
    if open.Some? then Some(open.value.entryTime) else None
  }

  lemma PairDecisionTimes(m: Pairs.Market, t: nat, signal: int, open: Option<Pairs.Position>, id: nat)
    requires m.Feeds(t + 1)
    ensures var e := Pairs.Decide(m, t, signal, open, id);
            && (e.Entered? ==> e.position.entryTime == m.a.timestamps[t])
            && (e.Closed? || e.Called? ==>
                  open.Some? && e.trade.entryTime == open.value.entryTime && e.trade.exitTime == m.a.timestamps[t])
  {
    hide Pairs.Sizes, Pairs.RollingSpreadMean, Pairs.HedgeRatio, ExitFill, NetPnl, CallBase, Pairs.MarginCalled,
      Breached;
  }

  /** Over every run of the two-leg engine the trades follow one another in time. */
  lemma {:induction false} PairTradesInOrder(m: Pairs.Market, signals: seq<int>, k: nat)
    requires k <= |signals| && m.Feeds(k) && Increasing(m.a.timestamps, k)
    ensures var b := Pairs.Run(m, signals, k);
            k > 0 ==> UpTo(b.trades, PairBegan(b.open), m.a.timestamps[k - 1])
    ensures InOrder(Pairs.Run(m, signals, k).trades)
  {
    hide Pairs.Decide, Pairs.Mark, UpTo;
    if k > 0 {
      PairTradesInOrder(m, signals, k - 1);
      var b := Pairs.Run(m, signals, k - 1);
      var now := m.a.timestamps[k - 1];
      var was := if k > 1 then m.a.timestamps[k - 2] else now - 1;
      NothingUpTo(was);
      assert UpTo(b.trades, PairBegan(b.open), was);
      PairDecisionTimes(m, k - 1, signals[k - 1], b.open, b.nextId);
      Pairs.DecideFits(m, k - 1, signals[k - 1], b.open, b.nextId);
      match Pairs.Decide(m, k - 1, signals[k - 1], b.open, b.nextId)
      case Entered(p) => EnteredUpTo(b.trades, was, now);
      case Closed(trade) => ClosedUpTo(b.trades, b.open.value.entryTime, was, trade);
      case Called(trade) => ClosedUpTo(b.trades, b.open.value.entryTime, was, trade);
      case _ => LaterIsUpTo(b.trades, PairBegan(b.open), was, now);
      OrderOf(Pairs.Run(m, signals, k).trades, PairBegan(Pairs.Run(m, signals, k).open), now);
    }
  }

  lemma OrderOf(trades: seq<Trade>, began: Option<int>, now: int)
    requires UpTo(trades, began, now)
    ensures InOrder(trades)
  {}

  // ---- Baskets ----

  function BasketBegan(open: Option<Baskets.Position>): Option<int> {
    if open.Some? then Some(open.value.entryTime) else None
  }

  lemma BasketDecisionTimes(m: Baskets.Market, t: nat, signal: int, open: Option<Baskets.Position>, id: nat)
    requires m.Feeds(t + 1) && Baskets.Matches(m, open)
    ensures var e := Baskets.Decide(m, t, signal, open, id);
            && (e.Entered? ==> e.position.entryTime == m.venues[0].timestamps[t])
            && (e.Closed? || e.Called? ==>
                  open.Some? && e.trade.entryTime == open.value.entryTime
                    && e.trade.exitTime == m.venues[0].timestamps[t])
  {
    hide Baskets.OpenLegs, Baskets.RollingCombinationMean, Baskets.WeightsAt, Baskets.ExitFills, Baskets.NetPnls,
      Baskets.MarginCalled, Baskets.CallBases, Baskets.Breaches, Baskets.ExceedsRiskLimit, Sum;
  }

  /** Over every run of the N-leg engine the trades follow one another in time. */
  lemma {:induction false} BasketTradesInOrder(m: Baskets.Market, signals: seq<int>, k: nat)
    requires k <= |signals| && m.Feeds(k) && Increasing(m.venues[0].timestamps, k)
    ensures var b := Baskets.Run(m, signals, k);
            k > 0 ==> UpTo(b.trades, BasketBegan(b.open), m.venues[0].timestamps[k - 1])
    ensures InOrder(Baskets.Run(m, signals, k).trades)
  {
    hide Baskets.Decide, Baskets.Mark, UpTo;
    if k > 0 {
      Baskets.FeedsShorter(m, k, k - 1);
      BasketTradesInOrder(m, signals, k - 1);
      var b := Baskets.Run(m, signals, k - 1);
      var now := m.venues[0].timestamps[k - 1];
      var was := if k > 1 then m.venues[0].timestamps[k - 2] else now - 1;
      NothingUpTo(was);
      assert UpTo(b.trades, BasketBegan(b.open), was);
      BasketDecisionTimes(m, k - 1, signals[k - 1], b.open, b.nextId);
      Baskets.DecideFits(m, k - 1, signals[k - 1], b.open, b.nextId);
      match Baskets.Decide(m, k - 1, signals[k - 1], b.open, b.nextId)
      case Entered(p) => EnteredUpTo(b.trades, was, now);
      case Closed(trade) => ClosedUpTo(b.trades, b.open.value.entryTime, was, trade);
      case Called(trade) => ClosedUpTo(b.trades, b.open.value.entryTime, was, trade);
      case _ => LaterIsUpTo(b.trades, BasketBegan(b.open), was, now);
      OrderOf(Baskets.Run(m, signals, k).trades, BasketBegan(Baskets.Run(m, signals, k).open), now);
    }
  }

  // ---- Returns and exit prices ----

  lemma ReturnTimesNotional(pnl: real, notional: real)
    requires notional > 0.0
    ensures Times(ReturnOnNotional(pnl, notional), notional) == pnl
  {}

  /** A closed pair's return is its profit on the notional it was entered with, and its exit price leg A's fill. */
  lemma PairTradeReturns(m: Pairs.Market, t: nat, p: Pairs.Position, id: nat)
    requires m.Feeds(t + 1) && m.Tradable(t) && !Pairs.MarginCalled(m, t, p)
    ensures var e := Pairs.Decide(m, t, CLOSE, Some(p), id);
            var notional := EntryNotional(p.legA) + EntryNotional(p.legB);
            && e.Closed? && e.trade.legs == [p.legA, p.legB] && e.trade.reason == CloseSignal
            && (notional > 0.0 ==> Times(e.trade.pnlPct, notional) == e.trade.pnl)
            && (m.feeA == LegFee(0.0, 0.0) ==> e.trade.exitPrice == m.a.prices[t].value)
            && (FairFee(m.feeA) ==> NoBetter(p.legA.side, e.trade.exitPrice, m.a.prices[t].value))
  {
    hide Pairs.MarginCalled, NetPnl, EntryNotional;
    var notional := EntryNotional(p.legA) + EntryNotional(p.legB);
    var pnl := Pairs.Decide(m, t, CLOSE, Some(p), id).trade.pnl;
    if notional > 0.0 {
      ReturnTimesNotional(pnl, notional);
    }
    FillIsNoBetter(p.legA, m.a.prices[t].value, m.feeA);
  }

  lemma FillIsNoBetter(leg: Leg, mid: real, fee: LegFee)
    requires mid >= 0.0
    ensures FairFee(fee) ==> NoBetter(leg.side, ExitFill(leg, mid, fee).price, mid)
    ensures fee == LegFee(0.0, 0.0) ==> ExitFill(leg, mid, fee).price == mid
  {
    if FairFee(fee) {
      ProductOfNonNegatives(mid, fee.slippageBps / 10000.0);
      assert mid * (1.0 - fee.slippageBps / 10000.0) == mid - mid * (fee.slippageBps / 10000.0);
    }
  }

  /** The same for a basket, whose exit price is the first leg's before slippage. */
  lemma BasketTradeReturns(m: Baskets.Market, t: nat, p: Baskets.Position, id: nat)
    requires m.Feeds(t + 1) && |p.legs| == |m.venues| && m.Tradable(t) && !Baskets.MarginCalled(m, t, p)
    ensures var e := Baskets.Decide(m, t, CLOSE, Some(p), id);
            var notional := Sum(Baskets.Notionals(p.legs));
            && e.Closed? && e.trade.legs == p.legs && e.trade.reason == CloseSignal
            && (notional > 0.0 ==> Times(e.trade.pnlPct, notional) == e.trade.pnl)
            && e.trade.exitPrice == m.venues[0].prices[t].value
  {
    hide Baskets.MarginCalled, Baskets.NetPnls, Baskets.Notionals, Baskets.ExitFills, Baskets.Commissions,
      Baskets.Slippages, Sum;
    var notional := Sum(Baskets.Notionals(p.legs));
    var pnl := Baskets.Decide(m, t, CLOSE, Some(p), id).trade.pnl;
    if notional > 0.0 {
      ReturnTimesNotional(pnl, notional);
    }
  }

  // ---- Whose fee ----

  const FREE := LegFee(0.0, 0.0)

  /**
   * Each leg of a pair pays its own fee: one that trades for free is opened and closed at the tick's price at no cost.
   */
  lemma PairLegsPayTheirOwnFees(m: Pairs.Market, t: nat, signal: int, ratio: real, p: Pairs.Position, id: nat)
    requires m.Feeds(t + 1) && m.Tradable(t)
    ensures var q := Pairs.Enter(m, t, signal, ratio);
            && (m.feeA == FREE ==> q.legA.entryPrice == m.a.prices[t].value && q.legA.entryCommission == 0.0)
            && (m.feeB == FREE ==> q.legB.entryPrice == m.b.prices[t].value && q.legB.entryCommission == 0.0)
    ensures var priceA, priceB := m.a.prices[t].value, m.b.prices[t].value;
            var exitA, exitB := ExitFill(p.legA, priceA, m.feeA), ExitFill(p.legB, priceB, m.feeB);
            var trade := Pairs.CloseAt(m, t, p, priceA, priceB, CloseSignal, id);
            var commission := trade.commission - p.legA.entryCommission - p.legB.entryCommission;
            var slippage := trade.slippage - p.legA.entrySlippage - p.legB.entrySlippage;
            && (m.feeA == FREE ==> commission == exitB.commission && slippage == exitB.slippage)
            && (m.feeB == FREE ==> commission == exitA.commission && slippage == exitA.slippage)
  {
    hide Pairs.Sizes, NetPnl, ReturnOnNotional, TakerFill;
    var (qtyA, qtyB) := Pairs.Sizes(m.cfg, m.a.prices[t].value, m.b.prices[t].value, ratio);
    forall mid, quantity, isBuy ensures TakerFill(mid, quantity, isBuy, FREE) == Fill(mid, 0.0, 0.0) {
      FreeFill(mid, quantity, isBuy);
    }
  }

  lemma FreeFill(mid: real, quantity: real, isBuy: bool)
    ensures TakerFill(mid, quantity, isBuy, FREE) == Fill(mid, 0.0, 0.0)
  {}

  /** The same for the legs of a basket. */
  lemma BasketLegsPayTheirOwnFees(
    cfg: Config, weights: seq<real>, prices: seq<real>, fees: seq<LegFee>, signal: int, legs: seq<Leg>, i: nat)
    requires |weights| == |prices| == |fees| == |legs| && i < |fees| && fees[i] == FREE
    ensures var leg := Baskets.OpenLegs(cfg, weights, prices, fees, signal)[i];
            var exit := Baskets.ExitFills(legs, prices, fees)[i];
            && leg.entryPrice == prices[i] == exit.price && leg.entryCommission == 0.0 == exit.commission
            && leg.entrySlippage == 0.0 == exit.slippage
  {
    hide Baskets.BaseQuantity;
  }

  // ---- What is refused as too short ----

  /** The tick has a price and a time. */
  predicate Readable(venue: Venue, t: nat) {
    t < |venue.prices| && t < |venue.timestamps|
  }

  /** Leg B of a pair is read for its price alone. */
  predicate PairReadable(a: Venue, b: Venue, t: nat) {
    Readable(a, t) && t < |b.prices|
  }

  /** Series are long enough exactly when every tick of the signals can be read. */
  lemma PairLongEnoughIsReadable(a: Venue, b: Venue, n: nat)
    ensures Pairs.LongEnough(a, b, n) <==> forall t :: 0 <= t < n ==> PairReadable(a, b, t)
  {
    if n > 0 && forall t :: 0 <= t < n ==> PairReadable(a, b, t) {
      assert PairReadable(a, b, n - 1);
    }
  }

  lemma BasketLongEnoughIsReadable(venues: seq<Venue>, n: nat)
    ensures Baskets.LongEnough(venues, n) <==>
            forall i, t :: 0 <= i < |venues| && 0 <= t < n ==> Readable(venues[i], t)
  {
    if n > 0 && (forall i, t :: 0 <= i < |venues| && 0 <= t < n ==> Readable(venues[i], t)) {
      forall i | 0 <= i < |venues| ensures |venues[i].prices| >= n && |venues[i].timestamps| >= n {
        assert Readable(venues[i], n - 1);
      }
    }
  }
}
