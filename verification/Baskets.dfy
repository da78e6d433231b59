/** The N-leg engine (backtest/src/basket_simulation.rs). */
module Baskets {
  import opened Reals
  import opened Margin
  import opened Legs
  import opened TickBook

  /** Dynamic weights come from an estimator over the legs' trailing price windows. */
  datatype WeightMode = Fixed(weights: seq<real>) | Dynamic(estimate: seq<seq<Quote>> -> Option<seq<real>>)

  datatype Market = Market(venues: seq<Venue>, weighting: WeightMode, fees: seq<LegFee>, cfg: Config) {
    predicate Covers(n: nat) {
      forall i :: 0 <= i < |venues| ==> venues[i].Covers(n, Leveraged())
    }

    predicate Leveraged() {
      cfg.risk.leverage > 1.0
    }

    function Upto(n: nat): Market {
      this.(venues := seq(|venues|, i requires 0 <= i < |venues| => venues[i].Upto(n)))
    }

    predicate Tradable(t: nat)
      requires Covers(t + 1)
    {
      forall i :: 0 <= i < |venues| ==> venues[i].prices[t].Tradable()
    }

    predicate ExtremesKnown(t: nat)
      requires Covers(t + 1) && Leveraged()
    {
      forall i :: 0 <= i < |venues| ==> venues[i].lows[t].Price? && venues[i].highs[t].Price?
    }

    predicate PricesKnown(t: nat)
      requires Covers(t + 1)
    {
      forall i :: 0 <= i < |venues| ==> venues[i].prices[t].Price?
    }

    function Prices(t: nat): seq<real>
      requires Covers(t + 1) && PricesKnown(t)
    {
      seq(|venues|, i requires 0 <= i < |venues| => venues[i].prices[t].value)
    }

    /** One fee and one weight per leg, whatever the estimator is shown. */
    ghost predicate Shaped() {
      && |venues| >= 1 && |fees| == |venues|
      && match weighting
         case Fixed(weights) => |weights| == |venues|
         case Dynamic(estimate) => forall windows :: estimate(windows).Some? ==> |estimate(windows).value| == |windows|
    }

    /** Wherever a margin call can be decided, every close is a number. */
    predicate ClosesBackExtremes(n: nat)
      requires Covers(n)
    {
      Leveraged() ==> forall t :: 0 <= t < n && ExtremesKnown(t) ==> PricesKnown(t)
    }

    ghost predicate Feeds(n: nat) {
      Shaped() && Covers(n) && ClosesBackExtremes(n)
    }
  }

  datatype Position = Position(legs: seq<Leg>, weights: seq<real>, entryTime: int)

  function Windows(m: Market, t: nat): seq<seq<Quote>>
    requires m.Covers(t + 1) && m.cfg.window <= t + 1
  {
    seq(|m.venues|, i requires 0 <= i < |m.venues| => m.venues[i].prices[t + 1 - m.cfg.window..t + 1])
  }

  function WeightsAt(m: Market, t: nat): (w: Option<seq<real>>)
    requires m.Covers(t + 1) && m.Shaped()
    ensures w.Some? ==> |w.value| == |m.venues|
  {
    match m.weighting
    case Fixed(weights) => Some(weights)
    case Dynamic(estimate) => if t + 1 < m.cfg.window then None else estimate(Windows(m, t))
  }

  /** `price[0] + sum of weight[i] * price[i]` over the other legs. */
  function Combination(weights: seq<real>, prices: seq<real>): real
    requires |weights| == |prices| >= 1
  {
    prices[0] + Sum(WeightedTail(weights, prices))
  }

  function WeightedTail(weights: seq<real>, prices: seq<real>): seq<real>
    requires |weights| == |prices| >= 1
  {
    seq(|prices| - 1, i requires 0 <= i < |prices| - 1 => weights[i + 1] * prices[i + 1])
  }

  /** Sum of the combination over ticks `first` up to `last`; a missing quote makes it missing. */
  function CombinationSum(m: Market, weights: seq<real>, first: nat, last: nat): Option<real>
    requires first <= last && m.Covers(last) && |weights| == |m.venues| >= 1
    decreases last - first
  {
    if first == last then Some(0.0)
    else
      var rest := CombinationSum(m, weights, first, last - 1);
      if rest.Some? && m.PricesKnown(last - 1) then Some(rest.value + Combination(weights, m.Prices(last - 1)))
      else None
  }

  function RollingCombinationMean(m: Market, weights: seq<real>, t: nat): Option<real>
    requires m.Covers(t + 1) && |weights| == |m.venues| >= 1
  {
    var w := m.cfg.window;
    if t + 1 < w || w == 0 then None
    else
      match CombinationSum(m, weights, t + 1 - w, t + 1)
      case None => None
      case Some(total) => Some(total / w as real)
  }

  function BaseQuantity(cfg: Config, price: real): real {
    SizeLeveragedOrder(cfg.initialCapital, cfg.sizePct, cfg.risk.leverage, price).quantity
  }

  function LegQuantity(weights: seq<real>, base: real, i: nat): real
    requires i < |weights|
  {
    if i == 0 then base else Abs(weights[i]) * base
  }

  /** Leg 0 follows the signal; every other leg follows the sign of its weight, zero counting as positive. */
  function LegSide(weights: seq<real>, signal: int, i: nat): Side
    requires i < |weights|
  {
    var positive := i == 0 || weights[i] >= 0.0;
    if positive == (signal == ENTER_LONG) then Long else Short
  }

  predicate ExceedsRiskLimit(cfg: Config, weights: seq<real>, prices: seq<real>, baseline: Option<real>)
    requires |weights| == |prices| >= 1
  {
    baseline.Some? &&
    Exposure(BaseQuantity(cfg, prices[0]), Combination(weights, prices) - baseline.value) > RiskBudget(cfg)
  }

  function OpenLegs(cfg: Config, weights: seq<real>, prices: seq<real>, fees: seq<LegFee>, signal: int): seq<Leg>
    requires |weights| == |prices| == |fees| >= 1
  {
    var base := BaseQuantity(cfg, prices[0]);
    seq(|prices|, i requires 0 <= i < |prices| =>
      OpenLeg(LegSide(weights, signal, i), LegQuantity(weights, base, i), prices[i], fees[i]))
  }

  function EntryEvent(m: Market, t: nat, signal: int): (e: Event<Position>)
    requires m.Covers(t + 1) && m.Shaped()
    ensures e.NoData? || e.RiskLimit? || e.Entered?
    ensures e.Entered? ==> |e.position.legs| == |m.venues|
  {
    if !m.Tradable(t) then NoData
    else
      match WeightsAt(m, t)
      case None => NoData
      case Some(weights) =>
        if ExceedsRiskLimit(m.cfg, weights, m.Prices(t), RollingCombinationMean(m, weights, t)) then RiskLimit
        else Entered(Position(OpenLegs(m.cfg, weights, m.Prices(t), m.fees, signal), weights,
                              m.venues[0].timestamps[t]))
  }

  function ExitFills(legs: seq<Leg>, bases: seq<real>, fees: seq<LegFee>): seq<Fill>
    requires |legs| == |bases| == |fees|
  {
    seq(|legs|, i requires 0 <= i < |legs| => ExitFill(legs[i], bases[i], fees[i]))
  }

  function NetPnls(legs: seq<Leg>, exits: seq<Fill>): seq<real>
    requires |legs| == |exits|
  {
    seq(|legs|, i requires 0 <= i < |legs| => NetPnl(legs[i], exits[i]))
  }

  function Commissions(legs: seq<Leg>, exits: seq<Fill>): seq<real>
    requires |legs| == |exits|
  {
    seq(|legs|, i requires 0 <= i < |legs| => legs[i].entryCommission + exits[i].commission)
  }

  function Slippages(legs: seq<Leg>, exits: seq<Fill>): seq<real>
    requires |legs| == |exits|
  {
    seq(|legs|, i requires 0 <= i < |legs| => legs[i].entrySlippage + exits[i].slippage)
  }

  function Notionals(legs: seq<Leg>): seq<real> {
    seq(|legs|, i requires 0 <= i < |legs| => EntryNotional(legs[i]))
  }

  function MarkedPnls(legs: seq<Leg>, prices: seq<real>): seq<real>
    requires |legs| == |prices|
  {
    seq(|legs|, i requires 0 <= i < |legs| => MarkedPnl(legs[i], prices[i]))
  }

  function ClosePosition(
    p: Position, bases: seq<real>, fees: seq<LegFee>, time: int, reason: ExitReason, id: nat): Trade
    requires |p.legs| == |bases| == |fees| >= 1
  {
    var exits := ExitFills(p.legs, bases, fees);
    var pnl := Sum(NetPnls(p.legs, exits));
    Trade(id, p.legs, bases[0], pnl, ReturnOnNotional(pnl, Sum(Notionals(p.legs))),
          Sum(Commissions(p.legs, exits)), Sum(Slippages(p.legs, exits)), p.entryTime, time, reason)
  }

  predicate Matches(m: Market, open: Option<Position>) {
    open.Some? ==> |open.value.legs| == |m.venues|
  }

  function Breaches(m: Market, t: nat, p: Position): seq<bool>
    requires m.Covers(t + 1) && m.Leveraged() && m.ExtremesKnown(t) && |p.legs| == |m.venues|
  {
    seq(|p.legs|, i requires 0 <= i < |p.legs| =>
      Breached(p.legs[i], m.venues[i].lows[t].value, m.venues[i].highs[t].value, m.cfg.risk))
  }

  predicate MarginCalled(m: Market, t: nat, p: Position)
    requires m.Covers(t + 1) && |p.legs| == |m.venues|
  {
    m.Leveraged() && m.ExtremesKnown(t) && true in Breaches(m, t, p)
  }

  function CallBases(p: Position, hits: seq<bool>, prices: seq<real>, risk: Risk): seq<real>
    requires |p.legs| == |hits| == |prices| && risk.leverage > 1.0
  {
    seq(|p.legs|, i requires 0 <= i < |p.legs| => CallBase(p.legs[i], hits[i], prices[i], risk))
  }

  function CallTrade(m: Market, t: nat, p: Position, id: nat): Trade
    requires m.Feeds(t + 1) && |p.legs| == |m.venues| && MarginCalled(m, t, p)
  {
    var hits := Breaches(m, t, p);
    ClosePosition(p, CallBases(p, hits, m.Prices(t), m.cfg.risk), m.fees, m.venues[0].timestamps[t],
                  MarginCall(hits), id)
  }

  function Decide(m: Market, t: nat, signal: int, open: Option<Position>, id: nat): (e: Event<Position>)
    requires m.Feeds(t + 1) && Matches(m, open)
    ensures e.Entered? ==> |e.position.legs| == |m.venues|
  {
    match open
    case Some(p) =>
      if MarginCalled(m, t, p) then Called(CallTrade(m, t, p, id))
      else if signal == CLOSE && m.Tradable(t) then
        Closed(ClosePosition(p, m.Prices(t), m.fees, m.venues[0].timestamps[t], CloseSignal, id))
      else Hold
    case None =>
      if IsEntrySignal(signal) then EntryEvent(m, t, signal) else Hold
  }

  function Mark(m: Market, t: nat, open: Option<Position>): real
    requires m.Covers(t + 1) && Matches(m, open)
  {
    if open.None? || !m.Tradable(t) then 0.0 else Sum(MarkedPnls(open.value.legs, m.Prices(t)))
  }

  function Step(m: Market, t: nat, signal: int, b: Book<Position>): (next: Book<Position>)
    requires m.Feeds(t + 1) && Matches(m, b.open)
    ensures Matches(m, next.open)
  {
    var e := Decide(m, t, signal, b.open, b.nextId);
    Post(b, e, m.cfg.initialCapital, Mark(m, t, Record(b, e).open))
  }

  /** The book after the first `k` ticks. */
  function Run(m: Market, signals: seq<int>, k: nat): (b: Book<Position>)
    requires k <= |signals| && m.Feeds(k)
    ensures Matches(m, b.open)
  {
    if k == 0 then EmptyBook() else Step(m, k - 1, signals[k - 1], Run(m, signals, k - 1))
  }

  // ---- Accounting ----

  /** Entry signals met while flat during the first `k` ticks. */
  function Attempts(m: Market, signals: seq<int>, k: nat): nat
    requires k <= |signals| && m.Feeds(k)
  {
    if k == 0 then 0
    else Attempts(m, signals, k - 1)
         + if Run(m, signals, k - 1).open.None? && IsEntrySignal(signals[k - 1]) then 1 else 0
  }

  /** Every position and every trade carries one leg per venue. */
  predicate WholeTrades(m: Market, trades: seq<Trade>) {
    forall i :: 0 <= i < |trades| ==> |trades[i].legs| == |m.venues|
  }

  lemma DecideFits(m: Market, t: nat, signal: int, open: Option<Position>, id: nat)
    requires m.Feeds(t + 1) && Matches(m, open)
    ensures var e := Decide(m, t, signal, open, id);
            && (open.Some? ==> e.Hold? || e.Closed? || e.Called?)
            && (open.None? ==> e.Hold? || e.NoData? || e.RiskLimit? || e.Entered?)
            && (e.Closed? || e.Called? ==> e.trade.id == id && |e.trade.legs| == |m.venues|)
            && (open.None? ==> IsAttempt(e) == if IsEntrySignal(signal) then 1 else 0)
  {
    hide EntryEvent, MarginCalled, Breaches, CallBases, ExitFills, NetPnls, Commissions, Slippages, Notionals;
  }

  lemma WholeAfterEvent(m: Market, b: Book<Position>, e: Event<Position>)
    requires WholeTrades(m, b.trades) && (e.Closed? || e.Called? ==> |e.trade.legs| == |m.venues|)
    ensures WholeTrades(m, Record(b, e).trades)
  {}

  /** The `k`-th tick as an event the book can take and the mark it posts. */
  lemma RunStep(m: Market, signals: seq<int>, k: nat) returns (e: Event<Position>, mark: real)
    requires 0 < k <= |signals| && m.Feeds(k)
    ensures var b := Run(m, signals, k - 1);
            && Run(m, signals, k) == Post(b, e, m.cfg.initialCapital, mark)
            && Matches(m, Record(b, e).open) && mark == Mark(m, k - 1, Record(b, e).open)
            && (e.Closed? || e.Called? ==> e.trade.id == b.nextId && |e.trade.legs| == |m.venues|)
            && (b.open.Some? ==> e.Hold? || e.Closed? || e.Called?)
            && (b.open.None? ==> e.Hold? || e.NoData? || e.RiskLimit? || e.Entered?)
            && Attempts(m, signals, k) == Attempts(m, signals, k - 1) + IsAttempt(e)
  {
    hide Decide, Mark, Post;
    var b := Run(m, signals, k - 1);
    e := Decide(m, k - 1, signals[k - 1], b.open, b.nextId);
    mark := Mark(m, k - 1, Record(b, e).open);
    DecideFits(m, k - 1, signals[k - 1], b.open, b.nextId);
  }

  lemma FeedsShorter(m: Market, n: nat, k: nat)
    requires m.Feeds(n) && k <= n
    ensures m.Feeds(k)
  {}

  lemma EmptyAccounts(m: Market)
    ensures Accounts<Position>(EmptyBook(), 0) && WholeTrades(m, [])
  {
    assert Pnls([]) == [];
  }

  lemma AccountsNext(m: Market, signals: seq<int>, k: nat)
    requires 0 < k <= |signals| && m.Feeds(k)
    requires Accounts(Run(m, signals, k - 1), Attempts(m, signals, k - 1))
    requires |Run(m, signals, k - 1).equity| == k - 1 && WholeTrades(m, Run(m, signals, k - 1).trades)
    ensures Accounts(Run(m, signals, k), Attempts(m, signals, k))
    ensures |Run(m, signals, k).equity| == k
    ensures WholeTrades(m, Run(m, signals, k).trades)
  {
    hide Run, Attempts, Accounts, Mark, Sum, Pnls;
    var e, mark := RunStep(m, signals, k);
    PostKeepsAccounts(Run(m, signals, k - 1), e, Attempts(m, signals, k - 1), m.cfg.initialCapital, mark);
    WholeAfterEvent(m, Run(m, signals, k - 1), e);
  }

  lemma {:induction false} RunAccounts(m: Market, signals: seq<int>, k: nat)
    requires k <= |signals| && m.Feeds(k)
    ensures Accounts(Run(m, signals, k), Attempts(m, signals, k))
    ensures |Run(m, signals, k).equity| == k
    ensures WholeTrades(m, Run(m, signals, k).trades)
  {
    hide Accounts, Market.Feeds, Step;
    if k == 0 {
      EmptyAccounts(m);
    } else {
      FeedsShorter(m, k, k - 1);
      RunAccounts(m, signals, k - 1);
      hide Run, Attempts;
      AccountsNext(m, signals, k);
    }
  }

  /** Equity is initial capital, plus every closed trade, plus the open legs at this tick's prices. */
  lemma EquityIdentity(m: Market, signals: seq<int>, t: nat, n: nat)
    requires t < n <= |signals| && m.Feeds(n)
    ensures |Run(m, signals, n).equity| == n
    ensures var b := Run(m, signals, t + 1);
            Run(m, signals, n).equity[t] == m.cfg.initialCapital + Sum(Pnls(b.trades)) + Mark(m, t, b.open)
  {
    hide Run, Attempts, Accounts, Mark, Sum, Pnls, Post, Record, Extends;
    RunAccounts(m, signals, n);
    RunAccounts(m, signals, t);
    RunExtends(m, signals, t + 1, n);
    var e, mark := RunStep(m, signals, t + 1);
    PostKeepsAccounts(Run(m, signals, t), e, Attempts(m, signals, t), m.cfg.initialCapital, mark);
    ExtendedCurve(Run(m, signals, n), Run(m, signals, t + 1), t + 1);
  }

  lemma {:induction false} RunExtends(m: Market, signals: seq<int>, k: nat, n: nat)
    requires k <= n <= |signals| && m.Feeds(n)
    ensures Extends(Run(m, signals, n), Run(m, signals, k))
  {
    hide Run, Attempts, Mark, Post, Record;
    if k < n {
      hide Extends;
      RunExtends(m, signals, k, n - 1);
      var e, mark := RunStep(m, signals, n);
      PostExtends(Run(m, signals, n - 1), e, m.cfg.initialCapital, mark);
      ExtendsOnward(Run(m, signals, n), Run(m, signals, n - 1), Run(m, signals, k));
    }
  }

  lemma {:induction false} NoLiquidationWithoutLeverage(m: Market, signals: seq<int>, k: nat)
    requires k <= |signals| && m.Feeds(k) && m.cfg.risk.leverage <= 1.0
    ensures Run(m, signals, k).liquidations == 0
    ensures forall i :: 0 <= i < |Run(m, signals, k).trades| ==> Run(m, signals, k).trades[i].reason == CloseSignal
  {
    hide EntryEvent, Mark;
    if k > 0 {
      FeedsShorter(m, k, k - 1);
      NoLiquidationWithoutLeverage(m, signals, k - 1);
    }
  }

  lemma {:induction false} SumsBalance(
    xs: seq<real>, marks: seq<real>, costs: seq<real>, losses: seq<real>, paid: seq<real>)
    requires |xs| == |marks| == |costs| == |losses| == |paid|
    requires forall i :: 0 <= i < |xs| ==> marks[i] == xs[i] + (costs[i] + losses[i] - paid[i])
    ensures Sum(marks) == Sum(xs) + (Sum(costs) + Sum(losses) - Sum(paid))
  {
    if xs != [] {
      var n := |xs| - 1;
      SumsBalance(xs[..n], marks[..n], costs[..n], losses[..n], paid[..n]);
    }
  }

  /**
   * What a tick marks an open basket at is what closing every leg there would earn before the costs of the exit: the
   * commissions and slippage of the trade that were not already paid at entry.
   */
  lemma MarkIsCloseBeforeCosts(m: Market, t: nat, p: Position, id: nat)
    requires m.Feeds(t + 1) && |p.legs| == |m.venues| && m.Tradable(t) && !MarginCalled(m, t, p)
    requires forall i :: 0 <= i < |m.fees| ==> FairFee(m.fees[i])
    ensures var e := Decide(m, t, CLOSE, Some(p), id);
            e.Closed? && Mark(m, t, Some(p))
              == e.trade.pnl + (e.trade.commission + e.trade.slippage - Sum(EntryCosts(e.trade.legs)))
  {
    hide MarginCalled, NetPnl, MarkedPnl, ExitFill, FairFee, Sum;
    var prices := m.Prices(t);
    var exits := ExitFills(p.legs, prices, m.fees);
    forall i | 0 <= i < |p.legs|
      ensures MarkedPnl(p.legs[i], prices[i]) == NetPnl(p.legs[i], exits[i]) + exits[i].commission + exits[i].slippage
    {
      LegCloseIsMarkLessCosts(p.legs[i], prices[i], m.fees[i]);
    }
    SumsBalance(NetPnls(p.legs, exits), MarkedPnls(p.legs, prices), Commissions(p.legs, exits),
                Slippages(p.legs, exits), EntryCosts(p.legs));
  }

  // ---- Causality ----

  lemma UptoFeeds(m: Market, n: nat)
    requires m.Feeds(n)
    ensures m.Upto(n).Feeds(n)
  {
    forall t | 0 <= t < n
      ensures m.Upto(n).PricesKnown(t) == m.PricesKnown(t)
      ensures m.Leveraged() ==> m.Upto(n).ExtremesKnown(t) == m.ExtremesKnown(t)
    {
      UptoKeepsTick(m, n, t);
    }
  }

  lemma UptoKeepsTick(m: Market, n: nat, t: nat)
    requires t < n && m.Covers(n)
    ensures m.Upto(n).Covers(t + 1)
    ensures m.Upto(n).Tradable(t) == m.Tradable(t)
    ensures m.Leveraged() ==> m.Upto(n).ExtremesKnown(t) == m.ExtremesKnown(t)
    ensures m.Upto(n).PricesKnown(t) == m.PricesKnown(t)
    ensures m.PricesKnown(t) ==> m.Upto(n).Prices(t) == m.Prices(t)
  {
    var u := m.Upto(n);
    assert forall i :: 0 <= i < |m.venues| ==>
      u.venues[i].prices[t] == m.venues[i].prices[t]
      && (m.Leveraged() ==> u.venues[i].lows[t] == m.venues[i].lows[t] && u.venues[i].highs[t] == m.venues[i].highs[t]);
  }

  lemma {:induction false} UptoKeepsSum(m: Market, n: nat, weights: seq<real>, first: nat, last: nat)
    requires first <= last <= n && m.Covers(n) && |weights| == |m.venues| >= 1
    ensures CombinationSum(m.Upto(n), weights, first, last) == CombinationSum(m, weights, first, last)
    decreases last
  {
    hide Combination;
    if first < last {
      UptoKeepsSum(m, n, weights, first, last - 1);
      UptoKeepsTick(m, n, last - 1);
    }
  }

  lemma UptoKeepsWeights(m: Market, n: nat, t: nat)
    requires t < n && m.Covers(n) && m.Shaped() && m.Upto(n).Shaped() && m.Upto(n).Covers(t + 1)
    ensures WeightsAt(m.Upto(n), t) == WeightsAt(m, t)
  {
    var u := m.Upto(n);
    if m.cfg.window <= t + 1 {
      assert forall i :: 0 <= i < |m.venues| ==>
        u.venues[i].prices[t + 1 - m.cfg.window..t + 1] == m.venues[i].prices[t + 1 - m.cfg.window..t + 1];
      assert Windows(u, t) == Windows(m, t);
    }
  }

  lemma UptoKeepsMean(m: Market, n: nat, t: nat, weights: seq<real>)
    requires t < n && m.Covers(n) && m.Upto(n).Covers(t + 1) && |weights| == |m.venues| >= 1
    ensures RollingCombinationMean(m.Upto(n), weights, t) == RollingCombinationMean(m, weights, t)
  {
    hide CombinationSum;
    if m.cfg.window <= t + 1 {
      UptoKeepsSum(m, n, weights, t + 1 - m.cfg.window, t + 1);
    }
  }

  lemma EntryIsCausal(m: Market, n: nat, t: nat, signal: int)
    requires t < n && m.Covers(n) && m.Shaped() && m.Upto(n).Shaped() && m.Upto(n).Covers(t + 1)
    ensures EntryEvent(m, t, signal) == EntryEvent(m.Upto(n), t, signal)
  {
    hide OpenLegs, ExceedsRiskLimit, WeightsAt, RollingCombinationMean;
    UptoKeepsTick(m, n, t);
    UptoKeepsWeights(m, n, t);
    if WeightsAt(m, t).Some? {
      UptoKeepsMean(m, n, t, WeightsAt(m, t).value);
    }
  }

  lemma DecideIsCausal(m: Market, n: nat, t: nat, signal: int, open: Option<Position>, id: nat)
    requires t < n && m.Feeds(n) && Matches(m, open)
    ensures m.Upto(n).Feeds(n)
    ensures Decide(m, t, signal, open, id) == Decide(m.Upto(n), t, signal, open, id)
    ensures Mark(m, t, open) == Mark(m.Upto(n), t, open)
  {
    hide EntryEvent, Breached, CallBases, ClosePosition, MarkedPnls;
    UptoFeeds(m, n);
    UptoKeepsTick(m, n, t);
    EntryIsCausal(m, n, t, signal);
    if open.Some? && m.Leveraged() && m.ExtremesKnown(t) {
      assert Breaches(m.Upto(n), t, open.value) == Breaches(m, t, open.value);
    }
  }

  /** The first `k` ticks see nothing of the data or the signals from tick `n` on. */
  lemma {:induction false} RunIsCausal(m: Market, signals: seq<int>, k: nat, n: nat)
    requires k <= n <= |signals| && m.Feeds(n)
    ensures m.Upto(n).Feeds(n)
    ensures Run(m, signals, k) == Run(m.Upto(n), signals[..n], k)
  {
    hide Decide, Mark;
    UptoFeeds(m, n);
    if k > 0 {
      RunIsCausal(m, signals, k - 1, n);
      var b := Run(m, signals, k - 1);
      var e := Decide(m, k - 1, signals[k - 1], b.open, b.nextId);
      DecideIsCausal(m, n, k - 1, signals[k - 1], b.open, b.nextId);
      DecideIsCausal(m, n, k - 1, signals[k - 1], Record(b, e).open, b.nextId);
    }
  }

  /** Two markets and signal arrays that agree before tick `t` give the same curve and log up to it. */
  lemma SamePastSameResults(m: Market, signals: seq<int>, m': Market, signals': seq<int>, t: nat, n: nat, n': nat)
    requires t <= n <= |signals| && t <= n' <= |signals'| && m.Feeds(n) && m'.Feeds(n')
    requires m.Upto(t) == m'.Upto(t) && signals[..t] == signals'[..t]
    ensures |Run(m, signals, n).equity| >= t && |Run(m', signals', n').equity| >= t
    ensures Run(m, signals, n).equity[..t] == Run(m', signals', n').equity[..t]
    ensures Run(m, signals, t) == Run(m', signals', t)
    ensures Run(m, signals, t).trades <= Run(m, signals, n).trades
    ensures Run(m, signals, t).trades <= Run(m', signals', n').trades
  {
    hide Run, Extends, Accounts, Attempts;
    FeedsShorter(m, n, t);
    FeedsShorter(m', n', t);
    hide Market.Feeds;
    RunIsCausal(m, signals, t, t);
    RunIsCausal(m', signals', t, t);
    RunExtends(m, signals, t, n);
    RunExtends(m', signals', t, n');
    RunAccounts(m, signals, t);
    ExtendedCurve(Run(m, signals, n), Run(m, signals, t), t);
    ExtendedCurve(Run(m', signals', n'), Run(m', signals', t), t);
  }

  // ---- The engine's loops ----

  datatype Failure = TooFewLegs | FeesMismatch | MissingVenue | NoSignals | SeriesTooShort | WeightsMismatch

  datatype Outcome = Outcome(trades: seq<Trade>, equity: seq<real>,
                             rejectedMissing: nat, rejectedRisk: nat, liquidations: nat)

  function Summary(b: Book<Position>): Outcome {
    Outcome(b.trades, b.equity, b.rejectedMissing, b.rejectedRisk, b.liquidations)
  }

  /** Closes every leg in one pass, accumulating profit and costs. */
  method CloseBasket(p: Position, bases: seq<real>, fees: seq<LegFee>, time: int, reason: ExitReason, id: nat)
    returns (trade: Trade)
    requires |p.legs| == |bases| == |fees| >= 1
    ensures trade == ClosePosition(p, bases, fees, time, reason, id)
  {
    hide ExitFill, NetPnl, EntryNotional, ReturnOnNotional;
    var pnl, commission, slippage, notional := 0.0, 0.0, 0.0, 0.0;
    ghost var exits := ExitFills(p.legs, bases, fees);
    for i := 0 to |p.legs|
      invariant pnl == Sum(NetPnls(p.legs, exits)[..i])
      invariant commission == Sum(Commissions(p.legs, exits)[..i])
      invariant slippage == Sum(Slippages(p.legs, exits)[..i])
      invariant notional == Sum(Notionals(p.legs)[..i])
    {
      var leg := p.legs[i];
      var exit := ExitFill(leg, bases[i], fees[i]);
      SumPrefix(NetPnls(p.legs, exits), i);
      SumPrefix(Commissions(p.legs, exits), i);
      SumPrefix(Slippages(p.legs, exits), i);
      SumPrefix(Notionals(p.legs), i);
      pnl := pnl + NetPnl(leg, exit);
      commission := commission + (leg.entryCommission + exit.commission);
      slippage := slippage + (leg.entrySlippage + exit.slippage);
      notional := notional + EntryNotional(leg);
    }
    assert NetPnls(p.legs, exits)[..|p.legs|] == NetPnls(p.legs, exits);
    assert Commissions(p.legs, exits)[..|p.legs|] == Commissions(p.legs, exits);
    assert Slippages(p.legs, exits)[..|p.legs|] == Slippages(p.legs, exits);
    assert Notionals(p.legs)[..|p.legs|] == Notionals(p.legs);
    return Trade(id, p.legs, bases[0], pnl, ReturnOnNotional(pnl, notional), commission, slippage,
                 p.entryTime, time, reason);
  }

  method CheckMarginCall(m: Market, t: nat, p: Position, id: nat) returns (called: Option<Trade>)
    requires m.Feeds(t + 1) && |p.legs| == |m.venues|
    ensures called == if MarginCalled(m, t, p) then Some(CallTrade(m, t, p, id)) else None
  {
    hide Breached, CallBase, ClosePosition;
    called := None;
    if m.Leveraged() && m.ExtremesKnown(t) {
      var hits := Breaches(m, t, p);
      if true in hits {
        var bases := CallBases(p, hits, m.Prices(t), m.cfg.risk);
        var trade := CloseBasket(p, bases, m.fees, m.venues[0].timestamps[t], MarginCall(hits), id);
        called := Some(trade);
      }
    }
  }

  /** Opens every leg of the basket at this tick's prices. */
  method OpenBasket(cfg: Config, weights: seq<real>, prices: seq<real>, fees: seq<LegFee>, signal: int)
    returns (legs: seq<Leg>)
    requires |weights| == |prices| == |fees| >= 1
    ensures legs == OpenLegs(cfg, weights, prices, fees, signal)
  {
    hide OpenLeg, LegSide, LegQuantity;
    var base := BaseQuantity(cfg, prices[0]);
    legs := [];
    for i := 0 to |prices|
      invariant legs == OpenLegs(cfg, weights, prices, fees, signal)[..i]
    {
      legs := legs + [OpenLeg(LegSide(weights, signal, i), LegQuantity(weights, base, i), prices[i], fees[i])];
    }
  }

  method TryEnter(m: Market, t: nat, signal: int) returns (e: Event<Position>)
    requires m.Covers(t + 1) && m.Shaped() && IsEntrySignal(signal)
    ensures e == EntryEvent(m, t, signal)
  {
    hide OpenLegs, ExceedsRiskLimit, RollingCombinationMean;
    if !m.Tradable(t) {
      return NoData;
    }
    var weights := WeightsAt(m, t);
    if weights.None? {
      return NoData;
    }
    var baseline := RollingCombinationMean(m, weights.value, t);
    if ExceedsRiskLimit(m.cfg, weights.value, m.Prices(t), baseline) {
      return RiskLimit;
    }
    var legs := OpenBasket(m.cfg, weights.value, m.Prices(t), m.fees, signal);
    return Entered(Position(legs, weights.value, m.venues[0].timestamps[t]));
  }

  /** What a signal does on a tick without a margin call: entry when flat, an explicit close when open. */
  method ProcessSignal(m: Market, t: nat, signal: int, open: Option<Position>, id: nat) returns (e: Event<Position>)
    requires m.Feeds(t + 1) && Matches(m, open)
    requires open.Some? ==> !MarginCalled(m, t, open.value)
    ensures e == Decide(m, t, signal, open, id) && !e.Called?
  {
    hide MarginCalled, CallTrade, EntryEvent, ClosePosition;
    e := Hold;
    if open.None? && IsEntrySignal(signal) {
      e := TryEnter(m, t, signal);
    } else if signal == CLOSE && open.Some? && m.Tradable(t) {
      var trade := CloseBasket(open.value, m.Prices(t), m.fees, m.venues[0].timestamps[t], CloseSignal, id);
      e := Closed(trade);
    }
  }

  /** Mark-to-market of what is open; nothing on a tick without valid prices. */
  method MarkOpen(m: Market, t: nat, open: Option<Position>) returns (unrealized: real)
    requires m.Covers(t + 1) && m.Shaped() && Matches(m, open)
    ensures unrealized == Mark(m, t, open)
  {
    hide MarkedPnl;
    unrealized := 0.0;
    if open.Some? && m.Tradable(t) {
      var legs, prices := open.value.legs, m.Prices(t);
      for i := 0 to |legs|
        invariant unrealized == Sum(MarkedPnls(legs, prices)[..i])
      {
        SumPrefix(MarkedPnls(legs, prices), i);
        unrealized := unrealized + MarkedPnl(legs[i], prices[i]);
      }
      assert MarkedPnls(legs, prices)[..|legs|] == MarkedPnls(legs, prices);
    }
  }

  lemma MarginCallDecides(m: Market, t: nat, signal: int, p: Position, id: nat)
    requires m.Feeds(t + 1) && |p.legs| == |m.venues| && MarginCalled(m, t, p)
    ensures Decide(m, t, signal, Some(p), id) == Called(CallTrade(m, t, p, id))
    ensures Mark(m, t, None) == 0.0
  {
    hide MarginCalled, CallTrade;
  }

  method RunTicks(m: Market, signals: seq<int>) returns (r: Outcome)
    requires m.Feeds(|signals|)
    ensures r == Summary(Run(m, signals, |signals|))
  {
    hide Decide, Mark, MarginCalled, CallTrade;
    var open: Option<Position> := None;
    var realized := 0.0;
    var trades: seq<Trade> := [];
    var nextId, rejectedMissing, rejectedRisk, liquidations := 0, 0, 0, 0;
    var equity: seq<real> := [];
    for t := 0 to |signals|
      invariant Book(open, realized, trades, nextId, rejectedMissing, rejectedRisk, liquidations, equity)
             == Run(m, signals, t)
    {
      ghost var before := Run(m, signals, t);
      assert Run(m, signals, t + 1) == Step(m, t, signals[t], before);
      var signal := signals[t];

      if open.Some? {
        var called := CheckMarginCall(m, t, open.value, nextId);
        if called.Some? {
          MarginCallDecides(m, t, signal, open.value, nextId);
          open := None;
          realized := realized + called.value.pnl;
          trades := trades + [called.value];
          nextId := nextId + 1;
          liquidations := liquidations + 1;
          equity := equity + [m.cfg.initialCapital + realized];
          continue;
        }
      }

      var event := ProcessSignal(m, t, signal, open, nextId);
      match event {
        case NoData => rejectedMissing := rejectedMissing + 1;
        case RiskLimit => rejectedRisk := rejectedRisk + 1;
        case Entered(p) => open := Some(p);
        case Closed(trade) =>
          open := None;
          realized := realized + trade.pnl;
          trades := trades + [trade];
          nextId := nextId + 1;
        case _ =>
      }

      var unrealized := MarkOpen(m, t, open);
      equity := equity + [m.cfg.initialCapital + realized + unrealized];
    }
    return Outcome(trades, equity, rejectedMissing, rejectedRisk, liquidations);
  }

  function Known(venues: seq<Option<Venue>>): seq<Venue>
    requires forall i :: 0 <= i < |venues| ==> venues[i].Some?
  {
    seq(|venues|, i requires 0 <= i < |venues| => venues[i].value)
  }

  predicate LongEnough(venues: seq<Venue>, n: nat) {
    forall i :: 0 <= i < |venues| ==> |venues[i].prices| >= n && |venues[i].timestamps| >= n
  }

  predicate SomeMissing(venues: seq<Option<Venue>>) {
    exists i :: 0 <= i < |venues| && venues[i].None?
  }

  /** Enough legs, each with a fee and a venue: what is checked before the signals are looked at. */
  predicate LegsGiven(venues: seq<Option<Venue>>, fees: seq<LegFee>) {
    |venues| >= 3 && |fees| == |venues| && !SomeMissing(venues)
  }

  predicate WeightsFit(weighting: WeightMode, legs: nat) {
    weighting.Fixed? ==> |weighting.weights| == legs
  }

  /** The engine's entry point: one error for each argument at fault, the first fault found deciding. */
  method RunBasketBacktest(venues: seq<Option<Venue>>, weighting: WeightMode, fees: seq<LegFee>, cfg: Config,
                           signals: seq<int>) returns (r: Result<Outcome, Failure>)
    requires LegsGiven(venues, fees) && LongEnough(Known(venues), |signals|) && WeightsFit(weighting, |venues|) ==>
               Market(Known(venues), weighting, fees, cfg).Feeds(|signals|)
    ensures r == Err(TooFewLegs) <==> |venues| < 3
    ensures r == Err(FeesMismatch) <==> |venues| >= 3 && |fees| != |venues|
    ensures r == Err(MissingVenue) <==> |venues| >= 3 && |fees| == |venues| && SomeMissing(venues)
    ensures r == Err(NoSignals) <==> LegsGiven(venues, fees) && signals == []
    ensures r == Err(SeriesTooShort) <==>
            LegsGiven(venues, fees) && signals != [] && !LongEnough(Known(venues), |signals|)
    ensures r == Err(WeightsMismatch) <==>
              && LegsGiven(venues, fees) && signals != [] && LongEnough(Known(venues), |signals|)
              && weighting.Fixed? && |weighting.weights| != |venues|
    ensures r.Ok? ==>
              && LegsGiven(venues, fees) && LongEnough(Known(venues), |signals|) && WeightsFit(weighting, |venues|)
              && r.value == Summary(Run(Market(Known(venues), weighting, fees, cfg), signals, |signals|))
  {
    if |venues| < 3 {
      return Err(TooFewLegs);
    }
    if |fees| != |venues| {
      return Err(FeesMismatch);
    }
    if SomeMissing(venues) {
      return Err(MissingVenue);
    }
    if |signals| == 0 {
      return Err(NoSignals);
    }
    if !LongEnough(Known(venues), |signals|) {
      return Err(SeriesTooShort);
    }
    if !WeightsFit(weighting, |venues|) {
      return Err(WeightsMismatch);
    }
    var outcome := RunTicks(Market(Known(venues), weighting, fees, cfg), signals);
    return Ok(outcome);
  }
}
