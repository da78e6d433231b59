/** The two-leg engine (backtest/src/pair_simulation.rs). */
module Pairs {
  import opened Reals
  import opened Margin
  import opened Legs
  import opened TickBook

  /** A dynamic ratio comes from an estimator over the two trailing price windows. */
  datatype HedgeMode = Fixed(ratio: real) | Dynamic(estimate: (seq<Quote>, seq<Quote>) -> Option<real>)

  datatype Market = Market(a: Venue, b: Venue, hedge: HedgeMode, feeA: LegFee, feeB: LegFee, cfg: Config) {
    /** Times are read from leg A alone, extremes only under leverage. */
    predicate Covers(n: nat) {
      && |a.prices| >= n && |b.prices| >= n && |a.timestamps| >= n
      && (Leveraged() ==> a.Ranged(n) && b.Ranged(n))
    }

    predicate Leveraged() {
      cfg.risk.leverage > 1.0
    }

    function Upto(n: nat): Market {
      this.(a := a.Upto(n), b := b.Upto(n))
    }

    predicate Tradable(t: nat)
      requires Covers(t + 1)
    {
      a.prices[t].Tradable() && b.prices[t].Tradable()
    }

    predicate ExtremesKnown(t: nat)
      requires Covers(t + 1) && Leveraged()
    {
      a.lows[t].Price? && a.highs[t].Price? && b.lows[t].Price? && b.highs[t].Price?
    }

    /** Wherever a margin call can be decided, both closes are numbers. */
    predicate ClosesBackExtremes(n: nat)
      requires Covers(n)
    {
      Leveraged() ==>
        forall t :: 0 <= t < n && ExtremesKnown(t) ==> a.prices[t].Price? && b.prices[t].Price?
    }

    predicate Feeds(n: nat) {
      Covers(n) && ClosesBackExtremes(n)
    }
  }

  datatype Position = Position(legA: Leg, legB: Leg, hedgeRatio: real, entryTime: int)

  function HedgeRatio(m: Market, t: nat): Option<real>
    requires m.Covers(t + 1)
  {
    match m.hedge
    case Fixed(ratio) => Some(ratio)
    case Dynamic(estimate) =>
      if t + 1 < m.cfg.window then None
      else estimate(m.a.prices[t + 1 - m.cfg.window..t + 1], m.b.prices[t + 1 - m.cfg.window..t + 1])
  }

  function Spread(a: real, b: real, ratio: real): real {
    a - ratio * b
  }

  /** Sum of the spread over a window; a missing quote makes the whole sum missing. */
  function SpreadSum(a: seq<Quote>, b: seq<Quote>, ratio: real): Option<real>
    requires |a| == |b|
  {
    if a == [] then Some(0.0)
    else
      var rest := SpreadSum(a[..|a| - 1], b[..|b| - 1], ratio);
      var x, y := a[|a| - 1], b[|b| - 1];
      if rest.Some? && x.Price? && y.Price? then Some(rest.value + Spread(x.value, y.value, ratio)) else None
  }

  /** Without history, or with a hole in it, there is no baseline and the risk gate cannot fire. */
  function RollingSpreadMean(m: Market, ratio: real, t: nat): Option<real>
    requires m.Covers(t + 1)
  {
    var w := m.cfg.window;
    if t + 1 < w || w == 0 then None
    else
      match SpreadSum(m.a.prices[t + 1 - w..t + 1], m.b.prices[t + 1 - w..t + 1], ratio)
      case None => None
      case Some(total) => Some(total / w as real)
  }

  function HedgeQuantity(ratio: real, quantity: real): real {
    Abs(ratio) * quantity
  }

  function Sizes(cfg: Config, priceA: real, priceB: real, ratio: real): (real, real) {
    var qtyA := SizeLeveragedOrder(cfg.initialCapital, cfg.sizePct, cfg.risk.leverage, priceA).quantity;
    ScalePairedLegsToCap(qtyA, priceA, HedgeQuantity(ratio, qtyA), priceB, cfg.initialCapital, cfg.risk.leverage)
  }

  /** Drift is measured from where the spread has recently been sitting, not from zero. */
  predicate ExceedsRiskLimit(cfg: Config, priceA: real, priceB: real, ratio: real, baseline: Option<real>) {
    baseline.Some? &&
    var drift := Spread(priceA, priceB, Abs(ratio)) - baseline.value;
    Exposure(Sizes(cfg, priceA, priceB, ratio).0, drift) > RiskBudget(cfg)
  }

  function Enter(m: Market, t: nat, signal: int, ratio: real): Position
    requires m.Covers(t + 1) && m.Tradable(t)
  {
    var priceA, priceB := m.a.prices[t].value, m.b.prices[t].value;
    var (qtyA, qtyB) := Sizes(m.cfg, priceA, priceB, ratio);
    var side := if signal == ENTER_LONG then Long else Short;
    Position(OpenLeg(side, qtyA, priceA, m.feeA), OpenLeg(side.Opposite(), qtyB, priceB, m.feeB),
             ratio, m.a.timestamps[t])
  }

  function EntryEvent(m: Market, t: nat, signal: int): (e: Event<Position>)
    requires m.Covers(t + 1)
    ensures e.NoData? || e.RiskLimit? || e.Entered?
  {
    if !m.Tradable(t) then NoData
    else
      match HedgeRatio(m, t)
      case None => NoData
      case Some(ratio) =>
        if ExceedsRiskLimit(m.cfg, m.a.prices[t].value, m.b.prices[t].value, ratio,
                            RollingSpreadMean(m, Abs(ratio), t))
        then RiskLimit else Entered(Enter(m, t, signal, ratio))
  }

  function ClosePosition(p: Position, exitA: Fill, exitB: Fill, time: int, reason: ExitReason, id: nat): Trade {
    var pnl := NetPnl(p.legA, exitA) + NetPnl(p.legB, exitB);
    var notional := EntryNotional(p.legA) + EntryNotional(p.legB);
    Trade(id, [p.legA, p.legB], exitA.price, pnl, ReturnOnNotional(pnl, notional),
          p.legA.entryCommission + p.legB.entryCommission + exitA.commission + exitB.commission,
          p.legA.entrySlippage + p.legB.entrySlippage + exitA.slippage + exitB.slippage,
          p.entryTime, time, reason)
  }

  function CloseAt(m: Market, t: nat, p: Position, baseA: real, baseB: real, reason: ExitReason, id: nat): Trade
    requires m.Covers(t + 1)
  {
    ClosePosition(p, ExitFill(p.legA, baseA, m.feeA), ExitFill(p.legB, baseB, m.feeB), m.a.timestamps[t], reason, id)
  }

  function Breaches(m: Market, t: nat, p: Position): (bool, bool)
    requires m.Covers(t + 1) && m.Leveraged() && m.ExtremesKnown(t)
  {
    (Breached(p.legA, m.a.lows[t].value, m.a.highs[t].value, m.cfg.risk),
     Breached(p.legB, m.b.lows[t].value, m.b.highs[t].value, m.cfg.risk))
  }

  predicate MarginCalled(m: Market, t: nat, p: Position)
    requires m.Covers(t + 1)
  {
    m.Leveraged() && m.ExtremesKnown(t) && (Breaches(m, t, p).0 || Breaches(m, t, p).1)
  }

  function CallTrade(m: Market, t: nat, p: Position, id: nat): Trade
    requires m.Feeds(t + 1) && MarginCalled(m, t, p)
  {
    var (hitA, hitB) := Breaches(m, t, p);
    CloseAt(m, t, p,
            CallBase(p.legA, hitA, m.a.prices[t].value, m.cfg.risk),
            CallBase(p.legB, hitB, m.b.prices[t].value, m.cfg.risk), MarginCall([hitA, hitB]), id)
  }

  /** The decision of one tick: margin call first, then entry when flat, then an explicit close. */
  function Decide(m: Market, t: nat, signal: int, open: Option<Position>, id: nat): Event<Position>
    requires m.Feeds(t + 1)
  {
    match open
    case Some(p) =>
      if MarginCalled(m, t, p) then Called(CallTrade(m, t, p, id))
      else if signal == CLOSE && m.Tradable(t) then
        Closed(CloseAt(m, t, p, m.a.prices[t].value, m.b.prices[t].value, CloseSignal, id))
      else Hold
    case None =>
      if IsEntrySignal(signal) then EntryEvent(m, t, signal) else Hold
  }

  function Mark(m: Market, t: nat, open: Option<Position>): real
    requires m.Covers(t + 1)
  {
    if open.None? || !m.Tradable(t) then 0.0
    else
      MarkedPnl(open.value.legA, m.a.prices[t].value) + MarkedPnl(open.value.legB, m.b.prices[t].value)
  }

  function Step(m: Market, t: nat, signal: int, b: Book<Position>): Book<Position>
    requires m.Feeds(t + 1)
  {
    var e := Decide(m, t, signal, b.open, b.nextId);
    Post(b, e, m.cfg.initialCapital, Mark(m, t, Record(b, e).open))
  }

  /** The book after the first `k` ticks. */
  function Run(m: Market, signals: seq<int>, k: nat): Book<Position>
    requires k <= |signals| && m.Feeds(k)
  {
    if k == 0 then EmptyBook() else Step(m, k - 1, signals[k - 1], Run(m, signals, k - 1))
  }

  // ---- Accounting ----

  /** Entry signals met while flat during the first `k` ticks. */
  function Attempts(m: Market, signals: seq<int>, k: nat): nat
    requires k <= |signals| && m.Feeds(k)
  {
    if k == 0 then 0
    else Attempts(m, signals, k - 1)
         + if Run(m, signals, k - 1).open.None? && IsEntrySignal(signals[k - 1]) then 1 else 0
  }

  lemma DecideFits(m: Market, t: nat, signal: int, open: Option<Position>, id: nat)
    requires m.Feeds(t + 1)
    ensures var e := Decide(m, t, signal, open, id);
            && (open.Some? ==> e.Hold? || e.Closed? || e.Called?)
            && (open.None? ==> e.Hold? || e.NoData? || e.RiskLimit? || e.Entered?)
            && (e.Closed? || e.Called? ==> e.trade.id == id)
            && (open.None? ==> IsAttempt(e) == if IsEntrySignal(signal) then 1 else 0)
  {
    hide EntryEvent, MarginCalled, Breaches, CallBase, ExitFill;
  }

  /** The `k`-th tick as an event the book can take and the mark it posts. */
  lemma RunStep(m: Market, signals: seq<int>, k: nat) returns (e: Event<Position>, mark: real)
    requires 0 < k <= |signals| && m.Feeds(k)
    ensures var b := Run(m, signals, k - 1);
            && Run(m, signals, k) == Post(b, e, m.cfg.initialCapital, mark)
            && mark == Mark(m, k - 1, Record(b, e).open)
            && (e.Closed? || e.Called? ==> e.trade.id == b.nextId)
            && (b.open.Some? ==> e.Hold? || e.Closed? || e.Called?)
            && (b.open.None? ==> e.Hold? || e.NoData? || e.RiskLimit? || e.Entered?)
            && Attempts(m, signals, k) == Attempts(m, signals, k - 1) + IsAttempt(e)
  {
    hide Decide, Mark, Post, Record;
    var b := Run(m, signals, k - 1);
    e := Decide(m, k - 1, signals[k - 1], b.open, b.nextId);
    mark := Mark(m, k - 1, Record(b, e).open);
    DecideFits(m, k - 1, signals[k - 1], b.open, b.nextId);
  }

  lemma FeedsShorter(m: Market, n: nat, k: nat)
    requires m.Feeds(n) && k <= n
    ensures m.Feeds(k)
  {}

  lemma AccountsNext(m: Market, signals: seq<int>, k: nat)
    requires 0 < k <= |signals| && m.Feeds(k)
    requires Accounts(Run(m, signals, k - 1), Attempts(m, signals, k - 1)) && |Run(m, signals, k - 1).equity| == k - 1
    ensures Accounts(Run(m, signals, k), Attempts(m, signals, k))
    ensures |Run(m, signals, k).equity| == k
  {
    hide Run, Attempts, Accounts, Mark, Sum, Pnls;
    var e, mark := RunStep(m, signals, k);
    PostKeepsAccounts(Run(m, signals, k - 1), e, Attempts(m, signals, k - 1), m.cfg.initialCapital, mark);
  }

  lemma {:induction false} RunAccounts(m: Market, signals: seq<int>, k: nat)
    requires k <= |signals| && m.Feeds(k)
    ensures Accounts(Run(m, signals, k), Attempts(m, signals, k))
    ensures |Run(m, signals, k).equity| == k
  {
    if k == 0 {
      assert Pnls([]) == [];
    } else {
      hide Run, Attempts, Accounts;
      RunAccounts(m, signals, k - 1);
      AccountsNext(m, signals, k);
    }
  }

  /** Equity is initial capital, plus every closed trade, plus the open legs at this tick's prices. */
  lemma EquityIdentity(m: Market, signals: seq<int>, t: nat, n: nat)
    requires t < n <= |signals| && m.Feeds(n)
    ensures |Run(m, signals, n).equity| == n
    ensures var b := Run(m, signals, t + 1);
            Run(m, signals, n).equity[t] == m.cfg.initialCapital + Sum(Pnls(b.trades)) + Mark(m, t, b.open)
  {
    hide Run, Attempts, Accounts, Mark, Sum, Pnls, Post, Record, Extends;
    RunAccounts(m, signals, n);
    RunAccounts(m, signals, t);
    RunExtends(m, signals, t + 1, n);
    var e, mark := RunStep(m, signals, t + 1);
    PostKeepsAccounts(Run(m, signals, t), e, Attempts(m, signals, t), m.cfg.initialCapital, mark);
    ExtendedCurve(Run(m, signals, n), Run(m, signals, t + 1), t + 1);
  }

  lemma {:induction false} RunExtends(m: Market, signals: seq<int>, k: nat, n: nat)
    requires k <= n <= |signals| && m.Feeds(n)
    ensures Extends(Run(m, signals, n), Run(m, signals, k))
  {
    hide Run, Attempts, Mark, Post, Record;
    if k < n {
      hide Extends;
      RunExtends(m, signals, k, n - 1);
      var e, mark := RunStep(m, signals, n);
      PostExtends(Run(m, signals, n - 1), e, m.cfg.initialCapital, mark);
      ExtendsOnward(Run(m, signals, n), Run(m, signals, n - 1), Run(m, signals, k));
    }
  }

  lemma {:induction false} NoLiquidationWithoutLeverage(m: Market, signals: seq<int>, k: nat)
    requires k <= |signals| && m.Feeds(k) && m.cfg.risk.leverage <= 1.0
    ensures Run(m, signals, k).liquidations == 0
    ensures forall i :: 0 <= i < |Run(m, signals, k).trades| ==> Run(m, signals, k).trades[i].reason == CloseSignal
  {
    if k > 0 {
      NoLiquidationWithoutLeverage(m, signals, k - 1);
    }
  }

  /**
   * What a tick marks an open pair at is what closing it there would earn before the costs of the exit: the commissions
   * and slippage of the trade that were not already paid at entry.
   */
  lemma MarkIsCloseBeforeCosts(m: Market, t: nat, p: Position, id: nat)
    requires m.Feeds(t + 1) && m.Tradable(t) && FairFee(m.feeA) && FairFee(m.feeB) && !MarginCalled(m, t, p)
    ensures var e := Decide(m, t, CLOSE, Some(p), id);
            e.Closed? && Mark(m, t, Some(p))
              == e.trade.pnl + (e.trade.commission + e.trade.slippage - Sum(EntryCosts(e.trade.legs)))
  {
    hide MarginCalled, NetPnl, MarkedPnl, ExitFill, FairFee;
    LegCloseIsMarkLessCosts(p.legA, m.a.prices[t].value, m.feeA);
    LegCloseIsMarkLessCosts(p.legB, m.b.prices[t].value, m.feeB);
    var costs := EntryCosts([p.legA, p.legB]);
    SumOfTwo(costs, costs[0], costs[1]);
  }

  // ---- Causality ----

  lemma UptoFeeds(m: Market, n: nat)
    requires m.Feeds(n)
    ensures m.Upto(n).Feeds(n)
  {}

  lemma UptoKeepsWindow(m: Market, n: nat, t: nat)
    requires t < n && m.Covers(n)
    ensures forall ratio :: RollingSpreadMean(m.Upto(n), ratio, t) == RollingSpreadMean(m, ratio, t)
    ensures HedgeRatio(m.Upto(n), t) == HedgeRatio(m, t)
  {
    hide SpreadSum;
    var w := m.cfg.window;
    if t + 1 >= w {
      assert m.Upto(n).a.prices[t + 1 - w..t + 1] == m.a.prices[t + 1 - w..t + 1];
      assert m.Upto(n).b.prices[t + 1 - w..t + 1] == m.b.prices[t + 1 - w..t + 1];
    }
  }

  lemma EntryIsCausal(m: Market, n: nat, t: nat, signal: int)
    requires t < n && m.Covers(n)
    ensures EntryEvent(m, t, signal) == EntryEvent(m.Upto(n), t, signal)
  {
    hide RollingSpreadMean, HedgeRatio, Sizes, ExceedsRiskLimit, OpenLeg;
    UptoKeepsWindow(m, n, t);
  }

  lemma DecideIsCausal(m: Market, n: nat, t: nat, signal: int, open: Option<Position>, id: nat)
    requires t < n && m.Feeds(n)
    ensures m.Upto(n).Feeds(n)
    ensures Decide(m, t, signal, open, id) == Decide(m.Upto(n), t, signal, open, id)
    ensures Mark(m, t, open) == Mark(m.Upto(n), t, open)
  {
    hide EntryEvent, Breached, CallBase, CloseAt, MarkedPnl;
    UptoFeeds(m, n);
    EntryIsCausal(m, n, t, signal);
    assert forall p, x, y, r, i :: CloseAt(m.Upto(n), t, p, x, y, r, i) == CloseAt(m, t, p, x, y, r, i) by {
      CloseIsCausal(m, n, t);
    }
  }

  lemma CloseIsCausal(m: Market, n: nat, t: nat)
    requires t < n && m.Covers(n)
    ensures forall p, x, y, r, i :: CloseAt(m.Upto(n), t, p, x, y, r, i) == CloseAt(m, t, p, x, y, r, i)
  {}

  /** The first `k` ticks see nothing of the data or the signals from tick `n` on. */
  lemma {:induction false} RunIsCausal(m: Market, signals: seq<int>, k: nat, n: nat)
    requires k <= n <= |signals| && m.Feeds(n)
    ensures m.Upto(n).Feeds(n)
    ensures Run(m, signals, k) == Run(m.Upto(n), signals[..n], k)
  {
    hide Decide, Mark;
    UptoFeeds(m, n);
    if k > 0 {
      RunIsCausal(m, signals, k - 1, n);
      var b := Run(m, signals, k - 1);
      var e := Decide(m, k - 1, signals[k - 1], b.open, b.nextId);
      DecideIsCausal(m, n, k - 1, signals[k - 1], b.open, b.nextId);
      DecideIsCausal(m, n, k - 1, signals[k - 1], Record(b, e).open, b.nextId);
    }
  }

  /** Two markets and signal arrays that agree before tick `t` give the same curve and log up to it. */
  lemma SamePastSameResults(m: Market, signals: seq<int>, m': Market, signals': seq<int>, t: nat, n: nat, n': nat)
    requires t <= n <= |signals| && t <= n' <= |signals'| && m.Feeds(n) && m'.Feeds(n')
    requires m.Upto(t) == m'.Upto(t) && signals[..t] == signals'[..t]
    ensures |Run(m, signals, n).equity| >= t && |Run(m', signals', n').equity| >= t
    ensures Run(m, signals, n).equity[..t] == Run(m', signals', n').equity[..t]
    ensures Run(m, signals, t) == Run(m', signals', t)
    ensures Run(m, signals, t).trades <= Run(m, signals, n).trades
    ensures Run(m, signals, t).trades <= Run(m', signals', n').trades
  {
    hide Run, Extends, Accounts, Attempts;
    FeedsShorter(m, n, t);
    FeedsShorter(m', n', t);
    hide Market.Feeds;
    RunIsCausal(m, signals, t, t);
    RunIsCausal(m', signals', t, t);
    RunExtends(m, signals, t, n);
    RunExtends(m', signals', t, n');
    RunAccounts(m, signals, t);
    ExtendedCurve(Run(m, signals, n), Run(m, signals, t), t);
    ExtendedCurve(Run(m', signals', n'), Run(m', signals', t), t);
  }

  // ---- The engine's loop ----

  datatype Failure = MissingVenue | SeriesTooShort | NoSignals

  datatype Outcome = Outcome(trades: seq<Trade>, equity: seq<real>,
                             rejectedMissing: nat, rejectedRisk: nat, liquidations: nat)

  function Summary(b: Book<Position>): Outcome {
    Outcome(b.trades, b.equity, b.rejectedMissing, b.rejectedRisk, b.liquidations)
  }

  predicate LongEnough(a: Venue, b: Venue, n: nat) {
    |a.prices| >= n && |b.prices| >= n && |a.timestamps| >= n
  }

  /** Margin-call check of one tick for the open pair; any breached leg closes both. */
  method CheckMarginCall(m: Market, t: nat, p: Position, id: nat) returns (called: Option<Trade>)
    requires m.Feeds(t + 1)
    ensures called == if MarginCalled(m, t, p) then Some(CallTrade(m, t, p, id)) else None
  {
    hide Breached, CallBase, ClosePosition, TakerFill;
    called := None;
    if m.Leveraged() && m.ExtremesKnown(t) {
      var hitA := Breached(p.legA, m.a.lows[t].value, m.a.highs[t].value, m.cfg.risk);
      var hitB := Breached(p.legB, m.b.lows[t].value, m.b.highs[t].value, m.cfg.risk);
      if hitA || hitB {
        var baseA := CallBase(p.legA, hitA, m.a.prices[t].value, m.cfg.risk);
        var baseB := CallBase(p.legB, hitB, m.b.prices[t].value, m.cfg.risk);
        var exitA := TakerFill(baseA, p.legA.quantity, p.legA.side == Short, m.feeA);
        var exitB := TakerFill(baseB, p.legB.quantity, p.legB.side == Short, m.feeB);
        called := Some(ClosePosition(p, exitA, exitB, m.a.timestamps[t], MarginCall([hitA, hitB]), id));
      }
    }
  }

  /** All-or-nothing entry of one tick. */
  method TryEnter(m: Market, t: nat, signal: int) returns (e: Event<Position>)
    requires m.Covers(t + 1) && IsEntrySignal(signal)
    ensures e == EntryEvent(m, t, signal)
  {
    hide TakerFill, Sizes, ExceedsRiskLimit, HedgeRatio, RollingSpreadMean;
    if !m.Tradable(t) {
      return NoData;
    }
    var priceA, priceB := m.a.prices[t].value, m.b.prices[t].value;
    var hr := HedgeRatio(m, t);
    if hr.None? {
      return NoData;
    }
    var baseline := RollingSpreadMean(m, Abs(hr.value), t);
    if ExceedsRiskLimit(m.cfg, priceA, priceB, hr.value, baseline) {
      return RiskLimit;
    }
    var (qtyA, qtyB) := Sizes(m.cfg, priceA, priceB, hr.value);
    var sideA, sideB := Long, Short;
    if signal == ENTER_SHORT {
      sideA, sideB := Short, Long;
    }
    var fillA := TakerFill(priceA, qtyA, sideA == Long, m.feeA);
    var fillB := TakerFill(priceB, qtyB, sideB == Long, m.feeB);
    return Entered(Position(Leg(sideA, qtyA, fillA.price, fillA.commission, fillA.slippage),
                            Leg(sideB, qtyB, fillB.price, fillB.commission, fillB.slippage),
                            hr.value, m.a.timestamps[t]));
  }

  method RunPairBacktest(venueA: Option<Venue>, venueB: Option<Venue>, hedge: HedgeMode, feeA: LegFee, feeB: LegFee,
                         cfg: Config, signals: seq<int>) returns (r: Result<Outcome, Failure>)
    requires venueA.Some? && venueB.Some? && LongEnough(venueA.value, venueB.value, |signals|) ==>
               Market(venueA.value, venueB.value, hedge, feeA, feeB, cfg).Feeds(|signals|)
    ensures r == Err(MissingVenue) <==> venueA.None? || venueB.None?
    ensures r == Err(SeriesTooShort) <==>
              venueA.Some? && venueB.Some? && !LongEnough(venueA.value, venueB.value, |signals|)
    ensures r == Err(NoSignals) <==> venueA.Some? && venueB.Some? && signals == []
    ensures r.Ok? ==>
              && venueA.Some? && venueB.Some? && LongEnough(venueA.value, venueB.value, |signals|)
              && r.value == Summary(Run(Market(venueA.value, venueB.value, hedge, feeA, feeB, cfg), signals, |signals|))
  {
    if venueA.None? || venueB.None? {
      return Err(MissingVenue);
    }
    if !LongEnough(venueA.value, venueB.value, |signals|) {
      return Err(SeriesTooShort);
    }
    if |signals| == 0 {
      return Err(NoSignals);
    }
    var outcome := RunTicks(Market(venueA.value, venueB.value, hedge, feeA, feeB, cfg), signals);
    return Ok(outcome);
  }

  /** What a signal does on a tick without a margin call: entry when flat, an explicit close when open. */
  method ProcessSignal(m: Market, t: nat, signal: int, open: Option<Position>, id: nat) returns (e: Event<Position>)
    requires m.Feeds(t + 1)
    requires open.Some? ==> !MarginCalled(m, t, open.value)
    ensures e == Decide(m, t, signal, open, id) && !e.Called?
  {
    hide MarginCalled, CallTrade, EntryEvent, ClosePosition;
    e := Hold;
    if open.None? && IsEntrySignal(signal) {
      e := TryEnter(m, t, signal);
    } else if signal == CLOSE && open.Some? && m.Tradable(t) {
      e := Closed(CloseAt(m, t, open.value, m.a.prices[t].value, m.b.prices[t].value, CloseSignal, id));
    }
  }

  /** Mark-to-market of what is open; nothing on a tick without valid prices. */
  method MarkOpen(m: Market, t: nat, open: Option<Position>) returns (unrealized: real)
    requires m.Covers(t + 1)
    ensures unrealized == Mark(m, t, open)
  {
    unrealized := 0.0;
    if open.Some? && m.Tradable(t) {
      unrealized := MarkedPnl(open.value.legA, m.a.prices[t].value) + MarkedPnl(open.value.legB, m.b.prices[t].value);
    }
  }

  lemma MarginCallDecides(m: Market, t: nat, signal: int, p: Position, id: nat)
    requires m.Feeds(t + 1) && MarginCalled(m, t, p)
    ensures Decide(m, t, signal, Some(p), id) == Called(CallTrade(m, t, p, id))
    ensures Mark(m, t, None) == 0.0
  {
    hide MarginCalled, CallTrade;
  }

  method RunTicks(m: Market, signals: seq<int>) returns (r: Outcome)
    requires m.Feeds(|signals|)
    ensures r == Summary(Run(m, signals, |signals|))
  {
    hide Decide, Mark, MarginCalled, CallTrade;
    var open: Option<Position> := None;
    var realized := 0.0;
    var trades: seq<Trade> := [];
    var nextId, rejectedMissing, rejectedRisk, liquidations := 0, 0, 0, 0;
    var equity: seq<real> := [];
    for t := 0 to |signals|
      invariant Book(open, realized, trades, nextId, rejectedMissing, rejectedRisk, liquidations, equity)
             == Run(m, signals, t)
    {
      ghost var before := Run(m, signals, t);
      assert Run(m, signals, t + 1) == Step(m, t, signals[t], before);
      var signal := signals[t];

      if open.Some? {
        var called := CheckMarginCall(m, t, open.value, nextId);
        if called.Some? {
          MarginCallDecides(m, t, signal, open.value, nextId);
          open := None;
          realized := realized + called.value.pnl;
          trades := trades + [called.value];
          nextId := nextId + 1;
          liquidations := liquidations + 1;
          equity := equity + [m.cfg.initialCapital + realized];
          continue;
        }
      }

      var event := ProcessSignal(m, t, signal, open, nextId);
      match event {
        case NoData => rejectedMissing := rejectedMissing + 1;
        case RiskLimit => rejectedRisk := rejectedRisk + 1;
        case Entered(p) => open := Some(p);
        case Closed(trade) =>
          open := None;
          realized := realized + trade.pnl;
          trades := trades + [trade];
          nextId := nextId + 1;
        case _ =>
      }

      var unrealized := MarkOpen(m, t, open);
      equity := equity + [m.cfg.initialCapital + realized + unrealized];
    }
    return Outcome(trades, equity, rejectedMissing, rejectedRisk, liquidations);
  }
}
