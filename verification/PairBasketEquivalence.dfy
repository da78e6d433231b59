/** The N-leg engine at two legs with weights `[1, -|ratio|]` is the two-leg engine, tick by tick. */
module PairBasketEquivalence {
  import opened Reals
  import opened Margin
  import opened Legs
  import opened TickBook
  import Pairs
  import Baskets

  function Weights(ratio: real): seq<real> {
    [1.0, -Abs(ratio)]
  }

  function AsBasket(m: Pairs.Market, ratio: real): Baskets.Market {
    Baskets.Market([m.a, m.b], Baskets.Fixed(Weights(ratio)), [m.feeA, m.feeB], m.cfg)
  }

  /** The N-leg engine also demands times for leg B. */
  predicate Timed(m: Pairs.Market, n: nat) {
    m.Covers(n) && |m.b.timestamps| >= n
  }

  /** The pair's joint-exposure cap never binds at an entry. */
  predicate CapInactive(m: Pairs.Market, ratio: real, n: nat)
    requires m.Covers(n)
  {
    forall t :: 0 <= t < n && m.Tradable(t) ==>
      CapInactiveAt(m.cfg, m.a.prices[t].value, m.b.prices[t].value, ratio)
  }

  predicate CapInactiveAt(cfg: Config, priceA: real, priceB: real, ratio: real) {
    var quantity := Baskets.BaseQuantity(cfg, priceA);
    quantity >= 0.0 &&
    JointNotional(quantity, priceA, Pairs.HedgeQuantity(ratio, quantity), priceB) <=
    ExposureCap(cfg.initialCapital, cfg.risk.leverage)
  }

  predicate Comparable(m: Pairs.Market, ratio: real, n: nat) {
    ratio != 0.0 && m.hedge == Pairs.Fixed(ratio) && m.Feeds(n) && Timed(m, n) && CapInactive(m, ratio, n)
  }

  function AsBasketPosition(open: Option<Pairs.Position>, ratio: real): Option<Baskets.Position> {
    match open
    case None => None
    case Some(p) => Some(Baskets.Position([p.legA, p.legB], Weights(ratio), p.entryTime))
  }

  /** Equal but for the recorded exit price, which one engine takes after slippage and the other before it. */
  predicate SameTrade(x: Trade, y: Trade) {
    x.(exitPrice := y.exitPrice) == y
  }

  predicate SameEvent(e: Event<Pairs.Position>, e': Event<Baskets.Position>, ratio: real) {
    match e
    case Hold => e' == Hold
    case NoData => e' == NoData
    case RiskLimit => e' == RiskLimit
    case Entered(p) => e'.Entered? && Some(e'.position) == AsBasketPosition(Some(p), ratio)
    case Closed(trade) => e'.Closed? && SameTrade(trade, e'.trade)
    case Called(trade) => e'.Called? && SameTrade(trade, e'.trade)
  }

  ghost predicate SameBook(b: Book<Pairs.Position>, b': Book<Baskets.Position>, ratio: real) {
    && b'.open == AsBasketPosition(b.open, ratio)
    && b'.realized == b.realized && b'.nextId == b.nextId
    && b'.rejectedMissing == b.rejectedMissing && b'.rejectedRisk == b.rejectedRisk
    && b'.liquidations == b.liquidations && b'.equity == b.equity
    && |b'.trades| == |b.trades|
    && forall i :: 0 <= i < |b.trades| ==> SameTrade(b.trades[i], b'.trades[i])
  }

  lemma SameTick(m: Pairs.Market, ratio: real, t: nat)
    requires Timed(m, t + 1)
    ensures var bm := AsBasket(m, ratio);
            && bm.Covers(t + 1)
            && bm.Tradable(t) == m.Tradable(t)
            && (m.Leveraged() ==> bm.ExtremesKnown(t) == m.ExtremesKnown(t))
            && bm.PricesKnown(t) == (m.a.prices[t].Price? && m.b.prices[t].Price?)
            && (bm.PricesKnown(t) ==> bm.Prices(t) == [m.a.prices[t].value, m.b.prices[t].value])
  {
    var bm := AsBasket(m, ratio);
    assert bm.venues[0] == m.a && bm.venues[1] == m.b;
  }

  lemma SameFeeds(m: Pairs.Market, ratio: real, n: nat)
    requires m.Feeds(n) && Timed(m, n)
    ensures AsBasket(m, ratio).Feeds(n)
  {
    var bm := AsBasket(m, ratio);
    assert bm.Covers(n);
    forall t | 0 <= t < n
      ensures m.Leveraged() ==> bm.ExtremesKnown(t) == m.ExtremesKnown(t)
      ensures bm.PricesKnown(t) == (m.a.prices[t].Price? && m.b.prices[t].Price?)
    {
      SameTick(m, ratio, t);
    }
  }

  lemma SameCombination(ratio: real, priceA: real, priceB: real)
    ensures Baskets.Combination(Weights(ratio), [priceA, priceB]) == Pairs.Spread(priceA, priceB, Abs(ratio))
  {
    var tail := Baskets.WeightedTail(Weights(ratio), [priceA, priceB]);
    SumOfOne(tail, tail[0]);
    SameProduct(Weights(ratio)[1], -Abs(ratio), [priceA, priceB][1], priceB);
  }

  lemma {:induction false} SameSpreadSum(m: Pairs.Market, ratio: real, first: nat, last: nat)
    requires first <= last && Timed(m, last)
    ensures Baskets.CombinationSum(AsBasket(m, ratio), Weights(ratio), first, last) ==
            Pairs.SpreadSum(m.a.prices[first..last], m.b.prices[first..last], Abs(ratio))
    decreases last
  {
    hide Baskets.Combination, Pairs.Spread, Abs;
    if first < last {
      SameSpreadSum(m, ratio, first, last - 1);
      SameTick(m, ratio, last - 1);
      assert m.a.prices[first..last][..last - first - 1] == m.a.prices[first..last - 1];
      assert m.b.prices[first..last][..last - first - 1] == m.b.prices[first..last - 1];
      assert m.a.prices[first..last][last - first - 1] == m.a.prices[last - 1];
      assert m.b.prices[first..last][last - first - 1] == m.b.prices[last - 1];
      if AsBasket(m, ratio).PricesKnown(last - 1) {
        SameCombination(ratio, m.a.prices[last - 1].value, m.b.prices[last - 1].value);
      }
    }
  }

  lemma SameBaseline(m: Pairs.Market, ratio: real, t: nat)
    requires Timed(m, t + 1)
    ensures Baskets.RollingCombinationMean(AsBasket(m, ratio), Weights(ratio), t) ==
            Pairs.RollingSpreadMean(m, Abs(ratio), t)
  {
    hide Baskets.CombinationSum, Pairs.SpreadSum, Abs;
    if t + 1 >= m.cfg.window {
      SameSpreadSum(m, ratio, t + 1 - m.cfg.window, t + 1);
    }
  }

  lemma SameLegs(cfg: Config, priceA: real, priceB: real, ratio: real, feeA: LegFee, feeB: LegFee, signal: int)
    requires ratio != 0.0 && priceA > 0.0 && priceB > 0.0 && CapInactiveAt(cfg, priceA, priceB, ratio)
    ensures var (qtyA, qtyB) := Pairs.Sizes(cfg, priceA, priceB, ratio);
            var side := if signal == ENTER_LONG then Long else Short;
            && qtyA == Baskets.BaseQuantity(cfg, priceA)
            && Baskets.OpenLegs(cfg, Weights(ratio), [priceA, priceB], [feeA, feeB], signal) ==
               [OpenLeg(side, qtyA, priceA, feeA), OpenLeg(side.Opposite(), qtyB, priceB, feeB)]
  {
    hide JointNotional, ExposureCap, OpenLeg, SizeLeveragedOrder, ScalePairedLegsToCap;
    var quantity := Baskets.BaseQuantity(cfg, priceA);
    HedgeQuantityNonNegative(ratio, quantity);
    CapIsIdentityIff(quantity, priceA, Pairs.HedgeQuantity(ratio, quantity), priceB, cfg.initialCapital,
                     cfg.risk.leverage);
    SameHedgeQuantity(ratio, quantity);
  }

  /** Both engines size an entry alike exactly when the pair's cap is inactive there. */
  lemma SizesAgreeIff(cfg: Config, priceA: real, priceB: real, ratio: real)
    requires priceA > 0.0 && priceB > 0.0
    ensures var base := Baskets.BaseQuantity(cfg, priceA);
            Pairs.Sizes(cfg, priceA, priceB, ratio) ==
              (Baskets.LegQuantity(Weights(ratio), base, 0), Baskets.LegQuantity(Weights(ratio), base, 1))
            <==> CapInactiveAt(cfg, priceA, priceB, ratio)
  {
    hide JointNotional, ExposureCap, SizeLeveragedOrder, ScalePairedLegsToCap;
    var quantity := Baskets.BaseQuantity(cfg, priceA);
    if quantity >= 0.0 {
      HedgeQuantityNonNegative(ratio, quantity);
    }
    CapIsIdentityIff(quantity, priceA, Pairs.HedgeQuantity(ratio, quantity), priceB, cfg.initialCapital,
                     cfg.risk.leverage);
    SameHedgeQuantity(ratio, quantity);
  }

  lemma HedgeQuantityNonNegative(ratio: real, quantity: real)
    requires quantity >= 0.0
    ensures Pairs.HedgeQuantity(ratio, quantity) >= 0.0
  {}

  lemma SameHedgeQuantity(ratio: real, quantity: real)
    ensures Baskets.LegQuantity(Weights(ratio), quantity, 0) == quantity
    ensures Baskets.LegQuantity(Weights(ratio), quantity, 1) == Pairs.HedgeQuantity(ratio, quantity)
  {}

  lemma SameGate(cfg: Config, priceA: real, priceB: real, ratio: real, baseline: Option<real>)
    requires Pairs.Sizes(cfg, priceA, priceB, ratio).0 == Baskets.BaseQuantity(cfg, priceA)
    ensures Baskets.ExceedsRiskLimit(cfg, Weights(ratio), [priceA, priceB], baseline) ==
            Pairs.ExceedsRiskLimit(cfg, priceA, priceB, ratio, baseline)
  {
    hide Pairs.Sizes, Baskets.BaseQuantity, Baskets.Combination, Exposure, RiskBudget, Abs;
    SameCombination(ratio, priceA, priceB);
  }

  lemma SameEntry(m: Pairs.Market, ratio: real, t: nat, signal: int, n: nat)
    requires t < n && Comparable(m, ratio, n) && AsBasket(m, ratio).Feeds(n)
    ensures SameEvent(Pairs.EntryEvent(m, t, signal), Baskets.EntryEvent(AsBasket(m, ratio), t, signal), ratio)
  {
    hide Pairs.Sizes, Pairs.RollingSpreadMean, Pairs.ExceedsRiskLimit, OpenLeg, Abs, Baskets.OpenLegs,
      Baskets.RollingCombinationMean, Baskets.ExceedsRiskLimit, CapInactiveAt;
    SameTick(m, ratio, t);
    if m.Tradable(t) {
      var priceA, priceB := m.a.prices[t].value, m.b.prices[t].value;
      SameLegs(m.cfg, priceA, priceB, ratio, m.feeA, m.feeB, signal);
      SameBaseline(m, ratio, t);
      SameGate(m.cfg, priceA, priceB, ratio, Pairs.RollingSpreadMean(m, Abs(ratio), t));
      assert Baskets.WeightsAt(AsBasket(m, ratio), t) == Some(Weights(ratio));
    }
  }

  lemma SameClose(m: Pairs.Market, ratio: real, p: Pairs.Position, baseA: real, baseB: real, time: int,
                  reason: ExitReason, id: nat)
    ensures var exitA, exitB := ExitFill(p.legA, baseA, m.feeA), ExitFill(p.legB, baseB, m.feeB);
            SameTrade(Pairs.ClosePosition(p, exitA, exitB, time, reason, id),
                      Baskets.ClosePosition(AsBasketPosition(Some(p), ratio).value, [baseA, baseB], [m.feeA, m.feeB],
                                            time, reason, id))
  {
    hide ExitFill, NetPnl, ReturnOnNotional, EntryNotional, Sum;
    var exitA, exitB := ExitFill(p.legA, baseA, m.feeA), ExitFill(p.legB, baseB, m.feeB);
    var legs, exits := [p.legA, p.legB], [exitA, exitB];
    assert Baskets.ExitFills(legs, [baseA, baseB], [m.feeA, m.feeB]) == exits;
    SumOfTwo(Baskets.NetPnls(legs, exits), NetPnl(p.legA, exitA), NetPnl(p.legB, exitB));
    SumOfTwo(Baskets.Notionals(legs), EntryNotional(p.legA), EntryNotional(p.legB));
    SumOfTwo(Baskets.Commissions(legs, exits), p.legA.entryCommission + exitA.commission,
             p.legB.entryCommission + exitB.commission);
    SumOfTwo(Baskets.Slippages(legs, exits), p.legA.entrySlippage + exitA.slippage,
             p.legB.entrySlippage + exitB.slippage);
  }

  lemma SameCall(m: Pairs.Market, ratio: real, t: nat, p: Pairs.Position, id: nat, n: nat)
    requires t < n && m.Feeds(n) && Timed(m, n) && AsBasket(m, ratio).Feeds(n)
    ensures var bp := AsBasketPosition(Some(p), ratio).value;
            && Baskets.MarginCalled(AsBasket(m, ratio), t, bp) == Pairs.MarginCalled(m, t, p)
            && (Pairs.MarginCalled(m, t, p) ==>
                 SameTrade(Pairs.CallTrade(m, t, p, id), Baskets.CallTrade(AsBasket(m, ratio), t, bp, id)))
  {
    hide Breached, CallBase, Pairs.ClosePosition, Baskets.ClosePosition, Weights, SameTrade;
    var bm, bp := AsBasket(m, ratio), AsBasketPosition(Some(p), ratio).value;
    SameTick(m, ratio, t);
    if m.Leveraged() && m.ExtremesKnown(t) {
      var (hitA, hitB) := Pairs.Breaches(m, t, p);
      assert Baskets.Breaches(bm, t, bp) == [hitA, hitB];
      if hitA || hitB {
        assert Baskets.Breaches(bm, t, bp)[if hitA then 0 else 1];
        var baseA := CallBase(p.legA, hitA, m.a.prices[t].value, m.cfg.risk);
        var baseB := CallBase(p.legB, hitB, m.b.prices[t].value, m.cfg.risk);
        assert Baskets.CallBases(bp, [hitA, hitB], bm.Prices(t), m.cfg.risk) == [baseA, baseB];
        SameClose(m, ratio, p, baseA, baseB, m.a.timestamps[t], MarginCall([hitA, hitB]), id);
      }
    }
  }

  lemma SameDecision(m: Pairs.Market, ratio: real, t: nat, signal: int, open: Option<Pairs.Position>, id: nat, n: nat)
    requires t < n && Comparable(m, ratio, n) && AsBasket(m, ratio).Feeds(n)
    ensures SameEvent(Pairs.Decide(m, t, signal, open, id),
                      Baskets.Decide(AsBasket(m, ratio), t, signal, AsBasketPosition(open, ratio), id), ratio)
  {
    hide Pairs.EntryEvent, Baskets.EntryEvent, Pairs.MarginCalled, Baskets.MarginCalled, Pairs.CallTrade,
      Baskets.CallTrade, Pairs.ClosePosition, Baskets.ClosePosition, ExitFill, SameTrade, Weights, CapInactive;
    SameTick(m, ratio, t);
    if open.Some? {
      SameCall(m, ratio, t, open.value, id, n);
      if m.Tradable(t) {
        SameClose(m, ratio, open.value, m.a.prices[t].value, m.b.prices[t].value, m.a.timestamps[t], CloseSignal, id);
      }
    } else if IsEntrySignal(signal) {
      SameEntry(m, ratio, t, signal, n);
    }
  }

  lemma SameMark(m: Pairs.Market, ratio: real, t: nat, open: Option<Pairs.Position>)
    requires Timed(m, t + 1)
    ensures AsBasket(m, ratio).Covers(t + 1)
    ensures Baskets.Mark(AsBasket(m, ratio), t, AsBasketPosition(open, ratio)) == Pairs.Mark(m, t, open)
  {
    hide MarkedPnl, Sum;
    SameTick(m, ratio, t);
    if open.Some? && m.Tradable(t) {
      var priceA, priceB := m.a.prices[t].value, m.b.prices[t].value;
      SumOfTwo(Baskets.MarkedPnls([open.value.legA, open.value.legB], [priceA, priceB]),
               MarkedPnl(open.value.legA, priceA), MarkedPnl(open.value.legB, priceB));
    }
  }

  lemma SamePost(b: Book<Pairs.Position>, b': Book<Baskets.Position>, e: Event<Pairs.Position>,
                 e': Event<Baskets.Position>, ratio: real, initial: real, mark: real)
    requires SameBook(b, b', ratio) && SameEvent(e, e', ratio)
    ensures SameBook(Post(b, e, initial, mark), Post(b', e', initial, mark), ratio)
    ensures Record(b', e').open == AsBasketPosition(Record(b, e).open, ratio)
  {
    hide Weights;
  }

  /**
   * Over every run, margin-call ticks included, both engines keep the same equity curve, the same trades (ids,
   * legs, profits, costs, times, reasons) and the same rejection and liquidation counts.
   */
  lemma {:induction false} EnginesAgree(m: Pairs.Market, ratio: real, signals: seq<int>, k: nat)
    requires k <= |signals| && Comparable(m, ratio, k)
    ensures AsBasket(m, ratio).Feeds(k)
    ensures SameBook(Pairs.Run(m, signals, k), Baskets.Run(AsBasket(m, ratio), signals, k), ratio)
  {
    hide Pairs.Decide, Baskets.Decide, Pairs.Mark, Baskets.Mark, SameBook, SameEvent, CapInactiveAt, AsBasketPosition;
    SameFeeds(m, ratio, k);
    if k == 0 {
      EmptyBooksAgree(ratio);
    } else {
      EnginesAgree(m, ratio, signals, k - 1);
      var b, b' := Pairs.Run(m, signals, k - 1), Baskets.Run(AsBasket(m, ratio), signals, k - 1);
      SameBookFields(b, b', ratio);
      SameDecision(m, ratio, k - 1, signals[k - 1], b.open, b.nextId, k);
      var e := Pairs.Decide(m, k - 1, signals[k - 1], b.open, b.nextId);
      var e' := Baskets.Decide(AsBasket(m, ratio), k - 1, signals[k - 1], b'.open, b'.nextId);
      SameMark(m, ratio, k - 1, Record(b, e).open);
      SamePost(b, b', e, e', ratio, m.cfg.initialCapital, Pairs.Mark(m, k - 1, Record(b, e).open));
    }
  }

  lemma EmptyBooksAgree(ratio: real)
    ensures SameBook(EmptyBook(), EmptyBook(), ratio)
  {}

  lemma SameBookFields(b: Book<Pairs.Position>, b': Book<Baskets.Position>, ratio: real)
    requires SameBook(b, b', ratio)
    ensures b'.open == AsBasketPosition(b.open, ratio) && b'.nextId == b.nextId
  {}
}
