/** Isolated-margin arithmetic shared by the leveraged engines (portfoliomanager/src/margin.rs). */
module Margin {
  import opened Reals

  datatype Side = Long | Short {
    function Opposite(): Side {
      if this == Long then Short else Long
    }
  }

  /** A price level that may lie beyond every price. */
  datatype Level = At(price: real) | Unreachable

  function FlooredLeverage(leverage: real): real {
    Max(leverage, 1.0)
  }

  function InitialMargin(notional: real, leverage: real): real {
    notional / FlooredLeverage(leverage)
  }

  function LiquidationPrice(entry: real, side: Side, leverage: real, maintenance: real): (level: Level)
    ensures leverage > 1.0 ==> level.At?
  {
    if leverage <= 1.0 then
      match side
      case Long => At(0.0)
      case Short => Unreachable
    else At(Trigger(entry, side, 1.0 / leverage, maintenance))
  }

  function Trigger(entry: real, side: Side, marginRatio: real, maintenance: real): real {
    match side
    case Long => entry * (1.0 - marginRatio + maintenance)
    case Short => entry * (1.0 + marginRatio - maintenance)
  }

  predicate IsLiquidated(extreme: real, entry: real, side: Side, leverage: real, maintenance: real) {
    leverage > 1.0 &&
    var trigger := LiquidationPrice(entry, side, leverage, maintenance).price;
    match side
    case Long => extreme <= trigger
    case Short => extreme >= trigger
  }

  function LiquidationPenalty(trigger: real, side: Side, penaltyBps: real): real {
    match side
    case Long => trigger * (1.0 - penaltyBps / 10000.0)
    case Short => trigger * (1.0 + penaltyBps / 10000.0)
  }

  datatype OrderSize = OrderSize(notional: real, margin: real, quantity: real)

  function LeveragedNotional(equity: real, sizePct: real, leverage: real): real {
    equity * sizePct * FlooredLeverage(leverage)
  }

  function QuantityFor(notional: real, price: real): real {
    if price > 0.0 then notional / price else 0.0
  }

  function SizeLeveragedOrder(equity: real, sizePct: real, leverage: real, price: real): OrderSize {
    var notional := LeveragedNotional(equity, sizePct, leverage);
    OrderSize(notional, InitialMargin(notional, leverage), QuantityFor(notional, price))
  }

  function NonNegative(x: real): real {
    if x > 0.0 then x else 0.0
  }

  const MAX_AGGREGATE_POSITION_EQUITY_PCT := 1.0

  /** Largest joint notional of one logical position. */
  function ExposureCap(equity: real, leverage: real): real {
    NonNegative(LeveragedNotional(equity, MAX_AGGREGATE_POSITION_EQUITY_PCT, leverage))
  }

  function JointNotional(a: real, priceA: real, b: real, priceB: real): real {
    a * priceA + b * priceB
  }

  function CapFactor(combined: real, cap: real): real {
    if combined <= cap || combined <= 0.0 then 1.0 else cap / combined
  }

  function Shrink(quantity: real, factor: real): real {
    quantity * factor
  }

  /** Both legs shrink together when their joint notional would pass `equity * leverage`. */
  function ScalePairedLegsToCap(qtyA: real, priceA: real, qtyB: real, priceB: real, equity: real, leverage: real)
    : (real, real)
  {
    var a, b := NonNegative(qtyA), NonNegative(qtyB);
    var combined := JointNotional(a, NonNegative(priceA), b, NonNegative(priceB));
    var factor := CapFactor(combined, ExposureCap(equity, leverage));
    (Shrink(a, factor), Shrink(b, factor))
  }

  /** What the cap is for: quantities only shrink, joint notional under the cap, hedge ratio kept. */
  lemma CapBoundsJointNotional(qtyA: real, priceA: real, qtyB: real, priceB: real, equity: real, leverage: real)
    requires priceA > 0.0 && priceB > 0.0
    ensures var (x, y) := ScalePairedLegsToCap(qtyA, priceA, qtyB, priceB, equity, leverage);
            var a, b := NonNegative(qtyA), NonNegative(qtyB);
            && 0.0 <= x <= a
            && 0.0 <= y <= b
            && JointNotional(x, priceA, y, priceB)
              == Min(JointNotional(a, priceA, b, priceB), ExposureCap(equity, leverage))
            && x * b == y * a
  {}

  /** The cap changes nothing exactly when neither quantity is negative and the joint notional fits. */
  lemma CapIsIdentityIff(qtyA: real, priceA: real, qtyB: real, priceB: real, equity: real, leverage: real)
    requires priceA > 0.0 && priceB > 0.0
    ensures ScalePairedLegsToCap(qtyA, priceA, qtyB, priceB, equity, leverage) == (qtyA, qtyB) <==>
            qtyA >= 0.0 && qtyB >= 0.0 && JointNotional(qtyA, priceA, qtyB, priceB) <= ExposureCap(equity, leverage)
  {}

  /**
   * Leverage multiplies what is bought, not what is posted: a sized order posts its share of the equity whatever it is.
   */
  lemma SizedOrderPostsItsShare(equity: real, sizePct: real, leverage: real, price: real)
    requires price > 0.0
    ensures var o := SizeLeveragedOrder(equity, sizePct, leverage, price);
            && o.margin == equity * sizePct && o.notional == Times(o.margin, Max(leverage, 1.0))
            && Times(o.quantity, price) == o.notional
  {}

  /** At its trigger price a position's posted margin plus its loss is exactly the maintenance requirement. */
  lemma TriggerLeavesMaintenanceMargin(quantity: real, entry: real, side: Side, leverage: real, maintenance: real)
    requires leverage > 1.0
    ensures var trigger := LiquidationPrice(entry, side, leverage, maintenance).price;
            var pnl := if side == Long then (trigger - entry) * quantity else (entry - trigger) * quantity;
            InitialMargin(quantity * entry, leverage) + pnl == maintenance * (quantity * entry)
  {}

  /** `price` is no better than `than` for closing a position of this side. */
  predicate NoBetter(side: Side, price: real, than: real) {
    if side == Long then price <= than else price >= than
  }

  /** What a unit earns when a position of this side, marked at `mark`, leaves at `exit`. */
  function Improvement(side: Side, mark: real, exit: real): real {
    if side == Long then exit - mark else mark - exit
  }

  /** The penalty is a loss for either side: exactly its share of the trigger, a unit. */
  lemma PenaltyIsLoss(trigger: real, side: Side, penaltyBps: real)
    requires trigger >= 0.0 && penaltyBps >= 0.0
    ensures var exit := LiquidationPenalty(trigger, side, penaltyBps);
            && Improvement(side, trigger, exit) == -(Times(trigger, penaltyBps) / 10000.0)
            && NoBetter(side, exit, trigger)
  {
    ProductOfNonNegatives(trigger, penaltyBps);
    assert trigger * (1.0 - penaltyBps / 10000.0) == trigger - trigger * penaltyBps / 10000.0;
    assert trigger * (1.0 + penaltyBps / 10000.0) == trigger + trigger * penaltyBps / 10000.0;
  }

  /** Raising leverage only moves the trigger towards the entry price, so fewer moves are survived. */
  lemma LeverageTightensTrigger(extreme: real, entry: real, side: Side, low: real, high: real, maintenance: real)
    requires entry >= 0.0 && low <= high
    requires IsLiquidated(extreme, entry, side, low, maintenance)
    ensures IsLiquidated(extreme, entry, side, high, maintenance)
  {}
}
