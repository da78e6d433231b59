/** Leg-level fills and profit, shared by the two-leg and the N-leg engine. */
module Legs {
  import opened Reals
  import opened Margin

  /** A feed value: a finite number, or the not-a-number a feed holds where data is missing. */
  datatype Quote = Missing | Price(value: real) {
    predicate Tradable() {
      Price? && value > 0.0
    }
  }

  /** The first `n` items, or all where there are fewer. */
  function First<T>(xs: seq<T>, n: nat): seq<T> {
    if |xs| >= n then xs[..n] else xs
  }

  datatype Venue = Venue(prices: seq<Quote>, lows: seq<Quote>, highs: seq<Quote>, timestamps: seq<int>) {
    /** Closes and their times are known; so are the extremes, which only margin calls look at. */
    predicate Covers(n: nat, leveraged: bool) {
      |prices| >= n && |timestamps| >= n && (leveraged ==> Ranged(n))
    }

    predicate Ranged(n: nat) {
      |lows| >= n && |highs| >= n
    }

    function Upto(n: nat): Venue {
      Venue(First(prices, n), First(lows, n), First(highs, n), First(timestamps, n))
    }
  }

  datatype LegFee = LegFee(takerFee: real, slippageBps: real)

  datatype Fill = Fill(price: real, commission: real, slippage: real)

  datatype Leg = Leg(side: Side, quantity: real, entryPrice: real, entryCommission: real, entrySlippage: real)

  /** Commission on notional; slippage moves the price against the trader. */
  function TakerFill(mid: real, quantity: real, isBuy: bool, fee: LegFee): Fill {
    var factor := fee.slippageBps / 10000.0;
    var price := if isBuy then mid * (1.0 + factor) else mid * (1.0 - factor);
    Fill(price, price * quantity * fee.takerFee, Abs(price - mid) * quantity)
  }

  function OpenLeg(side: Side, quantity: real, mid: real, fee: LegFee): Leg {
    var fill := TakerFill(mid, quantity, side == Long, fee);
    Leg(side, quantity, fill.price, fill.commission, fill.slippage)
  }

  function SignedPnl(leg: Leg, price: real): real {
    var raw := (price - leg.entryPrice) * leg.quantity;
    if leg.side == Long then raw else -raw
  }

  function ExitFill(leg: Leg, base: real, fee: LegFee): Fill {
    TakerFill(base, leg.quantity, leg.side == Short, fee)
  }

  /** Closing profit of a leg, net of both commissions. */
  function NetPnl(leg: Leg, exit: Fill): real {
    SignedPnl(leg, exit.price) - leg.entryCommission - exit.commission
  }

  function MarkedPnl(leg: Leg, price: real): real {
    SignedPnl(leg, price) - leg.entryCommission
  }

  function EntryNotional(leg: Leg): real {
    leg.entryPrice * leg.quantity
  }

  datatype Risk = Risk(leverage: real, maintenance: real, penaltyBps: real)

  predicate Breached(leg: Leg, low: real, high: real, risk: Risk) {
    IsLiquidated(if leg.side == Long then low else high, leg.entryPrice, leg.side, risk.leverage, risk.maintenance)
  }

  /** A breached leg leaves at its penalised trigger, a surviving one at the tick's ordinary price. */
  function CallBase(leg: Leg, breached: bool, price: real, risk: Risk): real
    requires breached ==> risk.leverage > 1.0
  {
    if breached then
      LiquidationPenalty(LiquidationPrice(leg.entryPrice, leg.side, risk.leverage, risk.maintenance).price,
                         leg.side, risk.penaltyBps)
    else price
  }

  datatype ExitReason = CloseSignal | MarginCall(breached: seq<bool>)

  datatype Trade = Trade(id: nat, legs: seq<Leg>, exitPrice: real, pnl: real, pnlPct: real,
                         commission: real, slippage: real, entryTime: int, exitTime: int, reason: ExitReason)

  function ReturnOnNotional(pnl: real, entryNotional: real): real {
    if entryNotional > 0.0 then pnl / entryNotional else 0.0
  }

  predicate FairFee(fee: LegFee) {
    fee.takerFee >= 0.0 && 0.0 <= fee.slippageBps <= 10000.0
  }

  /** The recorded slippage is exactly the cash a fill loses against the mid price. */
  lemma SlippageIsLoss(mid: real, quantity: real, isBuy: bool, fee: LegFee)
    requires mid >= 0.0 && FairFee(fee)
    ensures var f := TakerFill(mid, quantity, isBuy, fee);
            (if isBuy then f.price - mid else mid - f.price) * quantity == f.slippage
  {
    var factor := fee.slippageBps / 10000.0;
    ProductOfNonNegatives(mid, factor);
    assert mid * (1.0 + factor) == mid + mid * factor;
    assert mid * (1.0 - factor) == mid - mid * factor;
  }

  /** A closed leg earns the signed move of the mid price, less all recorded slippage and commission. */
  lemma PnlIsMoveLessCosts(side: Side, quantity: real, entryMid: real, exitMid: real, fee: LegFee)
    requires entryMid >= 0.0 && exitMid >= 0.0 && FairFee(fee)
    ensures var leg := OpenLeg(side, quantity, entryMid, fee);
            var exit := ExitFill(leg, exitMid, fee);
            NetPnl(leg, exit) == (if side == Long then exitMid - entryMid else entryMid - exitMid) * quantity
                                 - leg.entrySlippage - exit.slippage - leg.entryCommission - exit.commission
  {
    hide TakerFill;
    SlippageIsLoss(entryMid, quantity, side == Long, fee);
    SlippageIsLoss(exitMid, quantity, side == Short, fee);
  }

  lemma FillCostsNonNegative(mid: real, quantity: real, isBuy: bool, fee: LegFee)
    requires mid >= 0.0 && quantity >= 0.0 && FairFee(fee)
    ensures var f := TakerFill(mid, quantity, isBuy, fee);
            f.price >= 0.0 && f.slippage >= 0.0 && f.commission >= 0.0
  {}

  /** Opening and closing at the same mid price never gains. */
  lemma RoundTripNeverProfits(side: Side, quantity: real, mid: real, fee: LegFee)
    requires mid >= 0.0 && quantity >= 0.0 && FairFee(fee)
    ensures var leg := OpenLeg(side, quantity, mid, fee);
            NetPnl(leg, ExitFill(leg, mid, fee)) <= 0.0
  {
    hide TakerFill, NetPnl;
    PnlIsMoveLessCosts(side, quantity, mid, mid, fee);
    FillCostsNonNegative(mid, quantity, side == Long, fee);
    FillCostsNonNegative(mid, quantity, side == Short, fee);
  }

  /** Closing a leg at a price earns its mark there, less the commission and the slippage of the exit. */
  lemma LegCloseIsMarkLessCosts(leg: Leg, mid: real, fee: LegFee)
    requires mid >= 0.0 && FairFee(fee)
    ensures var exit := ExitFill(leg, mid, fee);
            NetPnl(leg, exit) == MarkedPnl(leg, mid) - exit.commission - exit.slippage
  {
    hide TakerFill;
    SlippageIsLoss(mid, leg.quantity, leg.side == Short, fee);
  }

  function EntryCosts(legs: seq<Leg>): (costs: seq<real>)
    ensures |costs| == |legs|
  {
    seq(|legs|, i requires 0 <= i < |legs| => legs[i].entryCommission + legs[i].entrySlippage)
  }
}
