# Verified model of the backtest crate

A Dafny model of the trading ledgers and numeric kernels of a backtesting library, with proofs of what they promise.
Money, prices and quantities are `real`; indices, counters and times are integers; random choices are arbitrary inputs.
Check everything with `dafny verify dfyconfig.toml`.

The modules follow the source:

- `Margin`, `Legs`, `TickBook`: isolated-margin arithmetic, leg fills, and the per-tick book both multi-leg engines keep.
- `Pairs`, `PairLaws`, `Baskets`, `PairBasketEquivalence`: the two-leg and the N-leg engine, their accounting and
  causality over whole runs, two laws relating pairs of runs, and the equivalence of the engines at two legs.
- `CandleLedger`, `CandleSim`, `CandleRules`, `CandleEngine`, `PortfolioSim`: the candle simulator's margin ledger as a
  specification and as a class updated bar by bar, its refinement of a plain spot ledger at leverage 1, its exit and cost
  rules, and the portfolio on top.
- `Amm`, `Drawdown`, `MonteCarlo`, `TailRisk`: concentrated liquidity, drawdown, resampled paths and their tail.
- `MarginCalls`, `EntryDrift`, `TradeLog`: what margin calls cost in every engine, what entries of the multi-leg engines
  hold and let through, and what their trade logs say.
- `CandleSides`, `CandleCosts`, `CandleClock`: which side each signal takes and what it earns, what fills, commissions and
  tiers amount to, and when the candle simulator acts.
- `Correlation`, `ValueAtRisk`, `PortfolioRisk`: the correlation cache and what portfolio risk is computed from it.
- `VarianceSign`, `CommonWindow`: when that portfolio variance cannot be negative, for correlations and for histories.
- `SyntheticBook`, `Gaps`, `GapLines`, `Stitching`: the implied order book, gap filling, out-of-sample curves.
- `LimitQueue`, `LimitFills`, `RollingWindows`, `VolumeWindows`, `OrderTracking`: mutable queues and windows against their histories.
- `IndicatorCache`, `FastSignals`, `SignalLaws`, `IndicatorSnapshot`: precomputed indicators, rule evaluation on them and
  when rules fire, and their text form.

Where the source is a loop or an object that changes in place, the model is a method or a class proved against a
specification function, and the properties are lemmas about that function over every run.

## Where the code and its comments part

The code is followed in each case.

- Concentrated liquidity is described as always making impermanent loss more severe
  (backtest/src/amm_math.rs:114-116). That holds while both prices are in the range. Once one has left it the answer
  depends on the prices: the claim fails at entry 2 and price 3 of the range [1, 2] and holds at entry 1.5 and price 10.
  Amm.ConcentrationIsMoreSevereIff decides it for all of them.
- The main Monte Carlo result falls back to the worst sample when the cutoff does not lose but the tail does
  (backtest/src/monte_carlo.rs:763-776); the clamp that follows always replaces that fallback by the tail mean, and it
  is why the two result builders differ there.
- Final equity less allocated capital is total profit except for a portfolio without holdings, which reports the whole
  initial capital as final equity (backtest/src/portfolio_simulation.rs:444-466).
- Depth is said to be distributed so that each side gets half the volume (backtest/src/synthetic_book.rs:106-107). For
  a decay within 1e-12 of one, but not one, and more than one level, it does not; nor for a decay of -1 or less, which the
  settings accept, and an even number of levels.
- Gap filling leaves reported gaps when the threshold is below two periods less a second
  (backtest/src/engine.rs:1525-1534); a gap of that length is reported and gets no fill.
- A bar that gaps past a take-profit level is booked at the level (backtest/src/candle_sim.rs:468-479), a price it never
  traded at, while a stop takes the open; a bar that reaches equally far both ways stops a long but takes a short's profit
  (backtest/src/candle_sim.rs:484-491).
- The exclusion strategy (backtest/src/engine.rs:1574-1595) removes nothing from sorted data.
- Portfolio variance from cached pairs (backtest/src/portfolio_risk.rs:278-308) can be negative from three assets on, and
  value at risk is then not a number: an undefined correlation is stored as a reliable zero, and pairs of histories of
  different lengths are measured over different windows. With one window and every pair defined it never is.
- An entry is capped by the bar's volume only where that cap is positive (backtest/src/candle_sim.rs:584-585, 643-644); a
  configured share of zero, which is accepted (config/src/lib.rs:101-102), takes the whole order.
- Funding is charged for the intervals since the last charge (backtest/src/candle_sim.rs:382-393), and that clock stands
  still while nothing is held: a position pays on its first bar for the idle time before it.
- Interpolated fills stand at whole periods but share the price move equally (backtest/src/engine.rs:1527-1566), so they
  lie on the line between two trades only where the gap is a whole number of periods.
- A cancelled order is said to have never been filled (backtest/src/simulation.rs:733-738); orders a market order swept
  from the book are reported too, because their trackers were never told (backtest/src/simulation.rs:955-1026).
- A number of an indicator's suffix that follows a pause is stored too early
  (backtest/src/indicator_precompute.rs:79-97), and a cache whose indicator names contain a colon does not survive
  saving (backtest/src/indicator_precompute.rs:144-168).

## Model

| member | source | states |
|---|---|---|
| `Margin.CapBoundsJointNotional` | portfoliomanager/src/margin.rs:145-190 | scaling a pair to its cap only shrinks quantities, brings the joint notional to the smaller of what was asked and the cap, and keeps the hedge ratio |
| `Margin.CapIsIdentityIff` | portfoliomanager/src/margin.rs:145-190 | the cap passes quantities through exactly when neither is negative and the joint notional fits |
| `Margin.SizedOrderPostsItsShare` | portfoliomanager/src/margin.rs:77-120 | leverage multiplies what is bought, not what is posted: a sized order posts its share of the equity |
| `Margin.TriggerLeavesMaintenanceMargin` | portfoliomanager/src/margin.rs:25-50 | at the liquidation price the posted margin plus the loss equals the maintenance requirement, for longs and shorts |
| `Margin.PenaltyIsLoss` | portfoliomanager/src/margin.rs:193-207 | the liquidation penalty costs either side exactly its share of the trigger, a unit, and never improves its exit |
| `Margin.LeverageTightensTrigger` | portfoliomanager/src/margin.rs:36-75 | a bar that liquidates a position at some leverage liquidates it at every higher leverage |
| `Legs.SlippageIsLoss` | backtest/src/pair_simulation.rs:227-234 | the slippage a fill records is the cash it loses against the mid price |
| `Legs.PnlIsMoveLessCosts` | backtest/src/pair_simulation.rs:250-320 | a closed leg earns the signed mid-price move less every recorded commission and slippage |
| `Legs.FillCostsNonNegative` | backtest/src/pair_simulation.rs:227-234 | fills cost nothing negative under fair fees |
| `Legs.RoundTripNeverProfits` | backtest/src/pair_simulation.rs:227-320 | opening and closing at the same mid price never gains |
| `TickBook.PostKeepsAccounts` | backtest/src/pair_simulation.rs:366-594 | a posted tick keeps the identities below, and its equity point is initial capital + total closed P&L + the mark of what stays open |
| `TickBook.RecordKeepsAccounts` | backtest/src/pair_simulation.rs:382-582 | every kind of tick event keeps the accounting identities: realised P&L is the sum over the log, ids are 0..k-1, entry attempts split exactly into opened and the two rejections |
| `Pairs.CheckMarginCall` | backtest/src/pair_simulation.rs:382-448 | any breached leg closes both legs in that tick, the breached ones at the penalised trigger, the others at the ordinary price |
| `Pairs.TryEnter` | backtest/src/pair_simulation.rs:450-560 | entry is all or nothing: both legs, or exactly one rejection counter |
| `Pairs.ProcessSignal` | backtest/src/pair_simulation.rs:450-582 | on a tick without a margin call a signal enters when flat, closes when open and tradable, and otherwise does nothing |
| `Pairs.MarkIsCloseBeforeCosts` | backtest/src/pair_simulation.rs:563-592 | what a tick marks an open pair at is what an explicit close there would earn, plus the commissions and slippage of the exit |
| `Pairs.RunTicks` | backtest/src/pair_simulation.rs:366-603 | the tick loop computes the specified run |
| `Pairs.RunPairBacktest` | backtest/src/pair_simulation.rs:329-603 | each error is returned exactly for its condition, in the order of the checks; otherwise the result is the specified run |
| `Pairs.RunAccounts` | backtest/src/pair_simulation.rs:366-603 | on every run and prefix: realised P&L, consecutive ids, attempts = trades + still open + rejected for data + rejected for risk, one equity point a tick |
| `Pairs.EquityIdentity` | backtest/src/pair_simulation.rs:584-593 | each equity point is initial capital + closed P&L + the open legs marked at that tick (nothing where a price is invalid) |
| `Pairs.RunExtends` | backtest/src/pair_simulation.rs:366-603 | a longer run only extends the curve and the log; counters never fall |
| `Pairs.NoLiquidationWithoutLeverage` | backtest/src/pair_simulation.rs:373-382 | at leverage 1 or below no run liquidates, and every trade is closed by its signal |
| `Pairs.RunIsCausal` | backtest/src/pair_simulation.rs:366-594 | a run prefix depends only on the data and signals of that prefix, with any estimator of the trailing windows |
| `Pairs.SamePastSameResults` | backtest/src/pair_simulation.rs:366-594 | changing prices or signals from tick t on changes nothing in the curve or the log up to t |
| `PairLaws.MirrorEntry` | backtest/src/pair_simulation.rs:525-556 | under any fees, swapping the entry direction takes the same sizes on opposite sides at the same hedge ratio, and is rejected alike |
| `PairLaws.SwapReflectsRun` | backtest/src/pair_simulation.rs:462-603 | without fees and at leverage 1 or below, swapping 1 and -1 negates every trade P&L and reflects the whole curve about the initial capital, on every run |
| `PairLaws.SizesScale` | backtest/src/pair_simulation.rs:467-484 | sizes, cap included, scale with leverage |
| `PairLaws.GateIsMonotone` | backtest/src/pair_simulation.rs:503-522 | an entry the risk gate lets through at the higher leverage is let through at the lower |
| `PairLaws.SurvivalIsMonotone` | backtest/src/pair_simulation.rs:382-396 | a pair that survives a tick at the higher leverage survives it at the lower |
| `PairLaws.LeverageScalesRun` | backtest/src/pair_simulation.rs:462-603 | if the run at k times the leverage meets neither the gate nor a margin call, it is the original run with every size, cost and P&L times k, tick by tick |
| `Baskets.CloseBasket` | backtest/src/basket_simulation.rs:135-200 | the leg loop totals the same net P&L, commissions and slippage as the per-leg definition |
| `Baskets.CheckMarginCall` | backtest/src/basket_simulation.rs:262-303 | one breached leg closes the whole basket |
| `Baskets.OpenBasket` | backtest/src/basket_simulation.rs:350-366 | every leg opens at the tick with its weighted size and side |
| `Baskets.TryEnter` | backtest/src/basket_simulation.rs:306-374 | entry is all or nothing: every leg, or exactly one rejection counter |
| `Baskets.ProcessSignal` | backtest/src/basket_simulation.rs:306-387 | on a tick without a margin call a signal enters when flat, closes when open and tradable, and otherwise does nothing |
| `Baskets.MarkIsCloseBeforeCosts` | backtest/src/basket_simulation.rs:372-399 | what a tick marks an open basket at is what an explicit close of every leg there would earn, plus the commissions and slippage of the exit |
| `Baskets.RunTicks` | backtest/src/basket_simulation.rs:253-405 | the tick loop computes the specified run |
| `Baskets.RunBasketBacktest` | backtest/src/basket_simulation.rs:207-405 | each error is returned exactly for its condition, in the order of the checks; otherwise the result is the specified run |
| `Baskets.RunAccounts` | backtest/src/basket_simulation.rs:253-405 | the accounting identities of the pair engine for any number of legs, every trade holding every leg |
| `Baskets.EquityIdentity` | backtest/src/basket_simulation.rs:388-400 | each equity point is initial capital + closed P&L + all open legs marked at that tick |
| `Baskets.RunExtends` | backtest/src/basket_simulation.rs:253-405 | a longer run only extends the curve and the log |
| `Baskets.NoLiquidationWithoutLeverage` | backtest/src/basket_simulation.rs:262-303 | at leverage 1 or below no run liquidates |
| `Baskets.RunIsCausal` | backtest/src/basket_simulation.rs:253-447 | a run prefix depends only on the data and signals of that prefix |
| `Baskets.SamePastSameResults` | backtest/src/basket_simulation.rs:253-447 | changing prices or signals from tick t on changes nothing up to t |
| `PairBasketEquivalence.SizesAgreeIff` | backtest/src/basket_simulation.rs:318-330 | both engines size an entry alike exactly when the pair cap is inactive at it |
| `PairBasketEquivalence.SameDecision` | backtest/src/basket_simulation.rs:262-387 | on every tick, margin calls included, both engines take the same decision |
| `PairBasketEquivalence.EnginesAgree` | backtest/src/basket_simulation.rs:253-400 | over every run the N-leg engine at weights [1, -abs(ratio)] keeps the pair engine's curve, trades, rejections and liquidations |
| `MarginCalls.CalledLegLosesPenalty` | backtest/src/pair_simulation.rs:399-416 | a breached leg leaves at its trigger less the penalty, never better; a surviving one at the price of the tick |
| `MarginCalls.CalledLegLeavesMaintenance` | backtest/src/pair_simulation.rs:399-416 | a breached leg leaves of its posted margin, before fees, the maintenance requirement less the penalty on its quantity |
| `MarginCalls.PairPenaltyNeverHelps` | backtest/src/pair_simulation.rs:382-448 | raising the penalty calls the same pairs and never raises the P&L of a called one |
| `MarginCalls.BasketPenaltyNeverHelps` | backtest/src/basket_simulation.rs:262-303 | the same for a basket of any number of legs |
| `MarginCalls.PairCalledByEitherLeg` | backtest/src/pair_simulation.rs:382-398 | a pair is called when either leg's own range reaches its trigger, and not while both stay on their safe sides |
| `MarginCalls.BasketCalledByAnyLeg` | backtest/src/basket_simulation.rs:262-275 | a basket is called when any leg's own range reaches its trigger, and not while all stay on their safe sides |
| `MarginCalls.CandleCalledAtTrigger` | backtest/src/candle_sim.rs:395-414 | a candle account is called when the bar trades at its trigger, and not while it stays on the safe side |
| `MarginCalls.LiquidationReturnsAtMostMaintenance` | backtest/src/candle_sim.rs:395-437 | a liquidated candle account gets back at most the maintenance requirement of its position |
| `EntryDrift.LegHoldsItsWeight` | backtest/src/basket_simulation.rs:350-366 | every leg of a basket entry holds its weight, signed by the signal, in units of the first leg |
| `EntryDrift.LegIsOnItsWeightsSide` | backtest/src/basket_simulation.rs:350-366 | a leg is bought where its signed weight is positive; one that weighs nothing counts with the first leg |
| `EntryDrift.BasketMarksDrift` | backtest/src/basket_simulation.rs:350-398 | without fees an entered basket is marked at signal * base quantity * the drift of the weighted combination |
| `EntryDrift.EnteredBasketMarksDrift` | backtest/src/basket_simulation.rs:306-398 | the same for an entry of the engine on any later tick with prices |
| `EntryDrift.SizesKeepRatio` | backtest/src/pair_simulation.rs:467-484 | the cap keeps the hedge ratio between the legs |
| `EntryDrift.EnteredPairMarksDrift` | backtest/src/pair_simulation.rs:462-592 | without fees an entered pair is marked at signal * first leg * the drift of the hedged spread |
| `EntryDrift.DynamicRatioIsAToB` | backtest/src/pair_simulation.rs:606-640 | an estimator that recovers a ratio recovers that of leg A to leg B over the latest window; none before it is full |
| `EntryDrift.DynamicWeightsAreByLeg` | backtest/src/basket_simulation.rs:408-447 | an estimator that recovers proportions recovers every leg's at its own place |
| `EntryDrift.PairRefusedForDataIff` | backtest/src/pair_simulation.rs:450-465 | an entry is refused for its data exactly when a price is missing or not positive, or there is no hedge ratio |
| `EntryDrift.BasketRefusedForDataIff` | backtest/src/basket_simulation.rs:306-322 | the same for a basket, whatever leg is missing |
| `EntryDrift.EnteredPairIsWithinBudget` | backtest/src/pair_simulation.rs:503-522 | an entered pair with a baseline has at most its share of the capital exposed to the drift |
| `EntryDrift.EnteredBasketIsWithinBudget` | backtest/src/basket_simulation.rs:332-348 | the same for a basket |
| `EntryDrift.HigherLimitRejectsLess` | backtest/src/pair_simulation.rs:503-522 | raising the exposure limit never rejects an entry the lower one let through |
| `EntryDrift.SteadySpreadIsLetThrough` | backtest/src/pair_simulation.rs:503-640 | a spread that has not moved over the window is its own baseline, and its entry passes the gate |
| `EntryDrift.SteadyCombinationIsLetThrough` | backtest/src/basket_simulation.rs:332-428 | the same for a basket |
| `TradeLog.PairTradesInOrder` | backtest/src/pair_simulation.rs:366-582 | over every run the trades follow one another in time: each ends after it began and before the next begins |
| `TradeLog.BasketTradesInOrder` | backtest/src/basket_simulation.rs:253-387 | the same for baskets |
| `TradeLog.PairTradeReturns` | backtest/src/pair_simulation.rs:250-320 | a closed pair reports its profit on its entry notional as return, and leg A's fill, no better than the tick, as exit price |
| `TradeLog.BasketTradeReturns` | backtest/src/basket_simulation.rs:135-200 | a closed basket reports its profit on its entry notional as return, and the first leg's price before slippage as exit price |
| `TradeLog.PairLongEnoughIsReadable` | backtest/src/pair_simulation.rs:343-346 | series are long enough exactly when every tick of the signals can be read |
| `TradeLog.BasketLongEnoughIsReadable` | backtest/src/basket_simulation.rs:234-236 | the same for every leg of a basket |
| `TradeLog.PairLegsPayTheirOwnFees` | backtest/src/pair_simulation.rs:227-320 | each leg of a pair pays its own fee, at entry and at exit |
| `TradeLog.BasketLegsPayTheirOwnFees` | backtest/src/basket_simulation.rs:135-366 | the same for the legs of a basket |
| `CandleLedger.SameEquity` | backtest/src/candle_sim.rs:317-321 | at leverage 1 the margin account and the plain spot account have the same equity at every mark |
| `CandleLedger.SameClosed` | backtest/src/candle_sim.rs:798-844 | closing at leverage 1 moves both accounts alike |
| `CandleLedger.SameOpened` | backtest/src/candle_sim.rs:618-660 | opening at leverage 1, long or short, moves both accounts alike |
| `CandleLedger.OpenedIsPosted` | backtest/src/candle_sim.rs:591-660 | an opened position posts abs(quantity) * entry / leverage |
| `CandleLedger.CloseKeepsBalance` | backtest/src/candle_sim.rs:805-844 | closing keeps cash + margin = initial + trade P&L - entry commissions - funding and leaves the account flat |
| `CandleLedger.OpenKeepsBalance` | backtest/src/candle_sim.rs:591-660 | opening keeps that balance |
| `CandleLedger.BookKeepsTally` | backtest/src/candle_sim.rs:826-843 | booking a trade keeps wins + losses = trades and gross profit - gross loss = total P&L |
| `CandleSim.SlippageBounded` | backtest/src/candle_sim.rs:758-764 | base slippage stays within its configured bound |
| `CandleSim.ImpactBounded` | backtest/src/candle_sim.rs:765-772 | square-root impact stays within its bound for an order within the bar |
| `CandleSim.FillIsPositive` | backtest/src/candle_sim.rs:758-796 | a fill price stays positive under all cost components together |
| `CandleSim.OpenedFillIsPositive` | backtest/src/candle_sim.rs:547-660 | whatever the order size, a position that is opened is opened at a positive price |
| `CandleSim.BarsKeepBalance` | backtest/src/candle_sim.rs:350-703 | after every bar of every run, for any settings and prices: cash + margin = initial + trade P&L - entry commissions - funding, and the statistics describe exactly the trades |
| `CandleSim.BarsKeepSound` | backtest/src/candle_sim.rs:350-703 | on ordered positive bars and cost settings below the whole price, after every bar: flat means no margin and no entry price, open means margin = abs(quantity) * entry / leverage |
| `CandleSim.CurveIsEquity` | backtest/src/candle_sim.rs:680-703 | every curve point is the account's equity at that close, one a bar until an early stop, for any configuration and bars |
| `CandleSim.DrawdownOfCurve` | backtest/src/candle_sim.rs:682-692 | peak and drawdown are those of the curve started from the initial capital |
| `CandleSim.RunKeepsBalance` | backtest/src/candle_sim.rs:351-755 | every finished run, for any settings and prices, holds no position, keeps that balance and those statistics, and its curve ends at cash + margin |
| `CandleSim.RunBalances` | backtest/src/candle_sim.rs:351-755 | on ordered positive bars and cost settings below the whole price no margin stays posted: final cash less initial capital is trade P&L - entry commissions - funding, and the curve ends at the cash |
| `CandleSim.LeverageOneIsSpot` | backtest/src/candle_sim.rs:547-681 | over every run at leverage 1 the margin ledger refines the spot ledger bar by bar: same curve, sizes and statistics, spot cash = cash long or flat, cash + 2 * margin short; no liquidation |
| `CandleEngine.Ledger.constructor` | backtest/src/candle_sim.rs:315-348 | a new ledger is the initial state |
| `CandleEngine.Ledger.ApplyFillCosts` | backtest/src/candle_sim.rs:758-796 | prices a fill and adds each cost component to its running total |
| `CandleEngine.Ledger.ClosePosition` | backtest/src/candle_sim.rs:805-844 | credits margin plus P&L less commission, books the trade, flattens |
| `CandleEngine.Ledger.CloseFromBase` | backtest/src/candle_sim.rs:494-521 | costs the exit and closes |
| `CandleEngine.Ledger.PostPosition` | backtest/src/candle_sim.rs:591-601 | posts margin and pays the entry commission |
| `CandleEngine.Ledger.OpenPosition` | backtest/src/candle_sim.rs:563-601 | sizes on equity, caps by the bar's volume, and opens only a positive size |
| `CandleEngine.Ledger.ChargeFundingDue` | backtest/src/candle_sim.rs:382-393 | charges funding once per elapsed interval |
| `CandleEngine.Ledger.CheckLiquidation` | backtest/src/candle_sim.rs:395-437 | liquidates at the intrabar extreme before any voluntary exit, at the penalised trigger |
| `CandleEngine.Ledger.CheckExits` | backtest/src/candle_sim.rs:439-521 | arbitrates stop and target before costs are charged |
| `CandleEngine.Ledger.ProcessSignal` | backtest/src/candle_sim.rs:547-678 | flip, open, close or hold |
| `CandleEngine.Ledger.RecordEquity` | backtest/src/candle_sim.rs:680-702 | equity, peak, drawdown and early stop of one bar |
| `CandleEngine.Ledger.RunBar` | backtest/src/candle_sim.rs:350-703 | one bar is the specified step |
| `CandleEngine.Ledger.CloseOut` | backtest/src/candle_sim.rs:704-728 | a position left open is closed at the last close of the feed |
| `CandleEngine.Run` | backtest/src/candle_sim.rs:290-755 | the bar loop over the ledger computes the specified run and report |
| `CandleEngine.StoppedStaysStopped` | backtest/src/candle_sim.rs:694-703 | once early termination stops a run nothing later changes it |
| `CandleEngine.RatiosRecover` | backtest/src/candle_sim.rs:730-735 | profit factor times gross loss is the gross profit, ten stands for profits without a loss, and the win rate times the trades is the wins |
| `CandleSides.OpenTakesSide` | backtest/src/candle_sim.rs:563-656 | an entry is long or short as asked, at a price no better than its base, exactly when something is wanted and the bar has volume |
| `CandleSides.SignalTakesSide` | backtest/src/candle_sim.rs:547-678 | a buy ends long, a sell short, an exit flat; a position already on the side is kept, one on the other side is closed first, any other signal changes nothing |
| `CandleSides.BarTakesSide` | backtest/src/candle_sim.rs:350-703 | after every bar the account is on the side its signal asks for, and a stale signal changes nothing |
| `CandleSides.OneSidedFeedStaysOnSide` | backtest/src/candle_sim.rs:350-703 | over every run a feed without sell signals is never short, and one without buy signals never long |
| `CandleSides.EntryEarnsTheMove` | backtest/src/candle_sim.rs:591-656 | after an entry the account is worth what it was plus its signed quantity times the move from its entry, less the commission |
| `CandleSides.CostlessEntryEarnsTheMove` | backtest/src/candle_sim.rs:591-656 | without costs buying gains exactly on a rise from the price bought at, and selling on a fall |
| `CandleCosts.SlippageFallsWithVolume` | backtest/src/candle_sim.rs:758-764 | thinner bars slip more, an average bar by the base, one without volume by the most |
| `CandleCosts.ImpactIsSquareRoot` | backtest/src/candle_sim.rs:765-772 | an order for the whole of a still bar moves the price by the full impact, and a quarter of an order by half of what it does |
| `CandleCosts.SpreadIsHalfTheRange` | backtest/src/candle_sim.rs:774-780 | crossing half the spread at the close costs at most half the range of the bar, and just that below the cap; exits pay none |
| `CandleCosts.AdverseFillsTowardsClose` | backtest/src/candle_sim.rs:782-792 | adverse selection fills an entry between open and close, at the close below its bound, only where the bar went its way |
| `CandleCosts.ReportedCostsAreTheSlip` | backtest/src/candle_sim.rs:758-796 | what the components report, with the base slippage, is what the fill loses against its base on the units of the order |
| `CandleCosts.SilentComponents` | backtest/src/candle_sim.rs:765-792 | components switched off report nothing |
| `CandleCosts.CloseChargesCommission` | backtest/src/candle_sim.rs:805-844 | closing books the price move less its commission, the rate on the value traded, and counts that value towards fee tiers |
| `CandleCosts.OpenChargesCommission` | backtest/src/candle_sim.rs:591-601 | opening charges the rate on the value opened and counts that value alike |
| `CandleCosts.TierFeeIsLastReached` | backtest/src/candle_sim.rs:369-376 | the fee is that of the last tier the volume reaches, or the fallback |
| `CandleCosts.MoreVolumeNeverCostsMore` | backtest/src/candle_sim.rs:369-376 | on tiers that reward volume trading more never raises the fee |
| `CandleCosts.TierDecay` | backtest/src/candle_sim.rs:359-381 | the volume fades by a thirtieth a whole day and is gone after thirty, the check keeps within a day of the bars, and the rate is the tier's |
| `CandleClock.EntryIsAtNextOpen` | backtest/src/candle_sim.rs:523-525 | without costs an entry is made at the open of the next bar, on the last bar at its close |
| `CandleClock.CostlessCloseOutKeepsEquity` | backtest/src/candle_sim.rs:704-728 | without costs closing what is left ends with the equity of the last close |
| `CandleClock.AverageOfEqualVolumes` | backtest/src/candle_sim.rs:302-302 | the average volume spreads all bars over the simulated ones |
| `CandleClock.FundingIsUpToDate` | backtest/src/candle_sim.rs:382-393 | an open position pays for whole intervals since the last charge, in proportion, and the clock moves by just those; a flat account pays nothing and leaves the clock |
| `CandleClock.IdleTimeIsCharged` | backtest/src/candle_sim.rs:382-393 | a concrete position that pays for ten intervals it was not held in |
| `CandleClock.LatencyIsBounded` | backtest/src/candle_sim.rs:532-537 | a drawn latency stays within its spread of the mean and is not negative |
| `CandleClock.StaleByBarLength` | backtest/src/candle_sim.rs:531-545 | a signal is dropped for certain when the quickest draw outlasts the bar and never when the slowest fits in it |
| `CandleClock.StopsAtFirstBreach` | backtest/src/candle_sim.rs:694-702 | over every run, it is given up at the first check with equity below the limit and at no other bar |
| `CandleRules.StopIsExecutable` | backtest/src/candle_sim.rs:449-466 | a stop leaves at a price the bar traded at, never better than its level or at a gain, and at the level unless the bar opened beyond it |
| `CandleRules.TargetIsExecutableIff` | backtest/src/candle_sim.rs:468-479 | a target leaves at its level, never at a loss; the bar traded there exactly when it did not gap past it |
| `CandleRules.TargetGapIsBookedAtLevel` | backtest/src/candle_sim.rs:468-479 | a concrete bar that stays beyond a target, whose exit is booked at a price it never traded at |
| `CandleRules.ExitsMirrorIff` | backtest/src/candle_sim.rs:439-507 | reflecting a bar about the entry and turning the position round reflects the exit, except exactly where the intrabar path ties between two different exits; there a long is stopped and a short takes its profit |
| `CandleRules.PathNeverWorsensExit` | backtest/src/candle_sim.rs:481-507 | without the intrabar path a bar exits at the worst level it touches; the path never worsens an exit and changes neither whether there is one nor the levels it can be at |
| `CandleRules.ImpactGrows` | backtest/src/candle_sim.rs:765-772 | square-root impact is not negative and never falls as the order grows |
| `CandleRules.CostsGrowWithSize` | backtest/src/candle_sim.rs:758-796 | fill costs never improve a price, and a larger order never fills at a better one |
| `CandleRules.VolumeCapsPositionIff` | backtest/src/candle_sim.rs:577-601 | an entry stays within the configured share of the bar volume exactly when the share is positive or the order is not; a bar without volume is never traded |
| `CandleRules.ZeroShareTakesWholeOrder` | backtest/src/candle_sim.rs:584-590 | a concrete order that a share of zero leaves uncapped |
| `PortfolioSim.CurveEndsAtCapitalPlusPnl` | backtest/src/portfolio_simulation.rs:176-218 | a holding's curve ends at its capital plus its total P&L |
| `PortfolioSim.RunHolding` | backtest/src/portfolio_simulation.rs:164-219 | a holding's reported result, whose final equity reconciles with its P&L |
| `PortfolioSim.RunHoldings` | backtest/src/portfolio_simulation.rs:158-219 | one result per holding with signals, in order |
| `PortfolioSim.ApplyPenalties` | backtest/src/portfolio_simulation.rs:222-243 | the pair loops charge the specified penalties in place |
| `PortfolioSim.EveryPairIsCharged` | backtest/src/portfolio_simulation.rs:222-243 | each holding loses exactly its half of every pair correlated above the threshold, with partners before and after it, and total P&L falls by both halves of all those pairs |
| `PortfolioSim.PenaltiesAreFair` | backtest/src/portfolio_simulation.rs:222-243 | penalties take from P&L and final equity alike, change nothing else, and never pay out |
| `PortfolioSim.PenaltyIsOnSmallerCapital` | backtest/src/portfolio_simulation.rs:228-236 | a correlated pair pays, in all, its correlation times the impact on the smaller capital |
| `PortfolioSim.SharesAddUp` | backtest/src/portfolio_simulation.rs:158-170 | the capitals of the holdings add up to the initial capital times the sum of their weights |
| `PortfolioSim.AggregateCurves` | backtest/src/portfolio_simulation.rs:319-339 | the portfolio curve is as long as the longest and is at every step the sum of the curves, ended ones at their last value |
| `PortfolioSim.RunCandleBased` | backtest/src/portfolio_simulation.rs:137-317 | final equity less allocated capital is total P&L, penalties included, exactly when there is a holding or no capital; the curve ends at the final equity plus the penalties; the win rate is all wins over all trades |
| `PortfolioSim.FreshRunsReconcile` | backtest/src/portfolio_simulation.rs:261-317 | the sums over holdings reconcile before and after penalties |
| `PortfolioSim.RateTimesTrades` | backtest/src/portfolio_simulation.rs:277-285 | the trade-weighted win rate recovers the number of winning trades |
| `Amm.LiquidityIsLargestThatFits` | backtest/src/amm_math.rs:96-112 | a liquidity fits a two-token budget exactly when it is at most the one computed, in all three price regions |
| `Amm.LiquidityRoundTrip` | backtest/src/amm_math.rs:71-112 | liquidity to amounts and back is the identity |
| `Amm.WorthByClamp` | backtest/src/amm_math.rs:71-138 | the three regions are one formula in the clamped price |
| `Amm.LossIsBounded` | backtest/src/amm_math.rs:117-138 | concentrated impermanent loss lies in (-1, 0] for every range, entry and current price, and is 0 exactly when both clamp to the same point |
| `Amm.ConstantProductLossBounded` | backtest/src/amm_math.rs:15-20 | constant-product loss lies in (-1, 0] and is 0 only at an unmoved price; without a price everything is lost |
| `Amm.WorthlessIsNoLoss` | backtest/src/amm_math.rs:117-138 | at a price of nothing a position entered below its range counts no loss |
| `Amm.ConcentrationIsMoreSevere` | backtest/src/amm_math.rs:114-138 | inside the range concentration makes the loss at least as severe as the constant-product loss |
| `Amm.ConcentrationIsMoreSevereIff` | backtest/src/amm_math.rs:15-138 | for every entry, current price and range: the concentrated loss is at least the constant-product one exactly under the stated condition, region by region (always with both prices inside, only at an unmoved price with both on one side, otherwise by how far the price went) |
| `Amm.SeverityOutsideVaries` | backtest/src/amm_math.rs:114-138 | both answers occur above the range [1, 2]: entry 2 and price 3 fails the claim, entry 1.5 and price 10 meets it |
| `Drawdown.MaxDrawdownOf` | backtest/src/pair_simulation.rs:178-193 | the one-pass loop computes the specified drawdown |
| `Drawdown.DrawdownIsWorstPair` | backtest/src/pair_simulation.rs:178-193 | on positive curves it is the largest fall over all pairs i <= j, attained, and in [0, 1) |
| `MonteCarlo.WelfordStep` | backtest/src/monte_carlo.rs:559-562 | one Welford update turns the mean and the sum of squared deviations of a sample into those of the extended sample |
| `MonteCarlo.Welford` | backtest/src/monte_carlo.rs:529-563 | the one-pass accumulators equal the two-pass mean and sum of squared deviations |
| `MonteCarlo.OrderIsIrrelevant` | backtest/src/monte_carlo.rs:492-496 | sums and compounded growth do not depend on the order of a sample |
| `MonteCarlo.PathStatisticsIgnoreOrder` | backtest/src/monte_carlo.rs:492-572 | net profit, wins, mean and m2 are the same for any permutation of the trades |
| `MonteCarlo.ShuffleReorders` | backtest/src/monte_carlo.rs:519-521 | shuffling the trade indices only permutes the sampled returns |
| `MonteCarlo.ShuffledPathsAgree` | backtest/src/monte_carlo.rs:492-572 | two paths over shufflings of the same trades end with the same equity, wins, mean and m2 |
| `MonteCarlo.SimulatePath` | backtest/src/monte_carlo.rs:523-572 | one path compounds the picked returns, counts wins, keeps both moments, and reports the drawdown of the curve with its adverse troughs, ruinous paths included |
| `MonteCarlo.SurvivablePathIsBounded` | backtest/src/monte_carlo.rs:523-572 | with returns above -1 and adverse excursions within capital every path stays positive and draws down at most 1 |
| `MonteCarlo.ExcursionScales` | backtest/src/monte_carlo.rs:536-546 | an excursion counts in full at the initial capital, in proportion around it, and not at all in ruin |
| `TailRisk.SortIsUnique` | backtest/src/monte_carlo.rs:236-242 | sorted samples with the same elements are equal, so percentiles do not depend on the sort |
| `TailRisk.SortIsSorted` | backtest/src/monte_carlo.rs:224-234 | the sort used here orders its sample and keeps its elements |
| `TailRisk.RankInRange` | backtest/src/monte_carlo.rs:236-242 | the nearest rank of a percentile up to 100 is an index of the sample |
| `TailRisk.PercentilesOrdered` | backtest/src/monte_carlo.rs:236-242 | percentiles are samples and rise with p; 0 is the least and 100 the greatest |
| `TailRisk.FanChart` | backtest/src/monte_carlo.rs:719-738 | at every step p5 <= p25 <= p50 <= p75 <= p95, taken over the paths that reach the step |
| `TailRisk.BandOfHundredAndOne` | backtest/src/monte_carlo.rs:719-738 | of a hundred and one samples the band takes those at places 5, 25, 50, 75 and 95 |
| `TailRisk.TailMeanBelowCutoff` | backtest/src/monte_carlo.rs:750-776 | from 20 samples on, the mean of the worst twentieth lies between the worst sample and the cutoff |
| `TailRisk.PlainTailIsOrdered` | backtest/src/monte_carlo.rs:1173-1193 | VaR <= CVaR without any clamp, for every sample size |
| `TailRisk.ClampEffect` | backtest/src/monte_carlo.rs:750-776 | from 20 samples on a losing cutoff makes the clamp a no-op; a non-losing one always ends at the tail mean, so the worst-sample fallback is never reported; below 20 samples both figures are 0 |
| `TailRisk.BuildersAgreeIff` | backtest/src/monte_carlo.rs:750-1193 | both result builders report the same tail exactly when the cutoff loses or the worst twentieth does not (below 20 samples: when the worst does not) |
| `Correlation.Correlate` | backtest/src/portfolio_risk.rs:135-169 | computes the sample correlation of the latest common window, undefined below 20 observations or for hardly varying samples |
| `Correlation.Accumulate` | backtest/src/portfolio_risk.rs:147-162 | the one-pass loop accumulates the covariance and both variances of the deviations |
| `Correlation.CauchySchwarz` | backtest/src/portfolio_risk.rs:154-163 | covariance squared is at most the product of the variances, for all histories |
| `Correlation.CorrelationInRange` | backtest/src/portfolio_risk.rs:135-169 | every defined correlation is in [-1, 1] and does not depend on the order of the assets |
| `Correlation.PerfectCorrelation` | backtest/src/portfolio_risk.rs:135-169 | returns that are a multiple of each other plus a drift have correlation 1 or -1 by the sign of the multiple, defined exactly when multiple and variation together exceed the cutoff |
| `ValueAtRisk.LookupInRange` | backtest/src/portfolio_risk.rs:311-322 | a cached correlation found is in range, in either order of the names |
| `ValueAtRisk.CalculatePortfolioVar` | backtest/src/portfolio_risk.rs:278-308 | the nested loops compute the double-sum variance and its root, and are not a number where it is negative |
| `ValueAtRisk.StressedVarIsTheWorst` | backtest/src/portfolio_risk.rs:242-308 | portfolio VaR lies between 0 and the stressed sum for any correlations in range, and equals it when all are 1 |
| `ValueAtRisk.TwoAssetsAlwaysHaveVar` | backtest/src/portfolio_risk.rs:278-308 | with two assets the variance is never negative |
| `VarianceSign.VarianceAboveGram` | backtest/src/portfolio_risk.rs:278-308 | for any number of assets and weights: when no pair is cached below the product of two vectors, the variance is at least the square of the portfolio's own vector |
| `VarianceSign.ThreeAssetsHaveVarIff` | backtest/src/portfolio_risk.rs:278-308 | three assets have a VaR for every choice of positions exactly when the three correlations sum to at least -1 or have a determinant that is not negative |
| `CommonWindow.LinkIsRecomputation` | backtest/src/portfolio_risk.rs:172-322 | after an update two assets are linked by the correlation of their histories when both are long enough, and by 0.5 otherwise |
| `CommonWindow.VolatilityOfAlternating` | backtest/src/portfolio_risk.rs:389-398 | the squared volatility of twenty alternating returns is twenty nineteenths of the squared jump |
| `CommonWindow.CommonWindowHasVar` | backtest/src/portfolio_risk.rs:135-308 | any number of assets, weighted in any way, have a VaR when the long enough histories are of one length and every two of them have a defined correlation or do not move together |
| `CommonWindow.CommonWindowReportsVar` | backtest/src/portfolio_risk.rs:212-308 | the same for the figures reported for the positions held |
| `CommonWindow.UndefinedPairBreaksVar` | backtest/src/portfolio_risk.rs:135-308 | three histories of one length, two of them too flat for their correlation to be defined, whose updated cache gives no VaR |
| `CommonWindow.UnequalWindowsBreakVar` | backtest/src/portfolio_risk.rs:135-308 | three histories of different lengths, every pair with a defined correlation, whose updated cache gives no VaR |
| `ValueAtRisk.ConcentrationBounds` | backtest/src/portfolio_risk.rs:224-229 | the concentration index lies between the squared and the plain largest share, both at most 1 |
| `PortfolioRisk.LookupIsRecomputation` | backtest/src/portfolio_risk.rs:172-200 | after an update every cached pair reads as recomputing it from the two histories, in either order |
| `PortfolioRisk.FaithfulIsInRange` | backtest/src/portfolio_risk.rs:172-200 | every entry of an updated cache is in [-1, 1] |
| `PortfolioRisk.MetricsAreCoherent` | backtest/src/portfolio_risk.rs:212-275 | VaR within the stressed figure, diversification at least 1, concentration within its bounds, whatever the histories |
| `PortfolioRisk.SingleAssetVar` | backtest/src/portfolio_risk.rs:231-275 | one held asset with a refreshed volatility has notional * sample volatility * 1.645 at risk, and 1.18 times that as shortfall: annualising cancels |
| `PortfolioRisk.UnknownVolatility` | backtest/src/portfolio_risk.rs:212-275 | an asset without a volatility is taken at twenty percent a year; delta and exposure are its own |
| `PortfolioRisk.DiversificationIsRatio` | backtest/src/portfolio_risk.rs:249-253 | the diversification ratio times the VaR is the stressed figure, and one without a VaR |
| `PortfolioRisk.TooFewToVary` | backtest/src/portfolio_risk.rs:389-392 | fewer than two observations do not vary |
| `PortfolioRisk.VolatilityOfTwo` | backtest/src/portfolio_risk.rs:389-398 | the volatility of two observations, squared, is half the square of their difference |
| `PortfolioRisk.Trim` | backtest/src/portfolio_risk.rs:127-131 | popping from the front keeps the latest window |
| `PortfolioRisk.RiskManager.constructor` | backtest/src/portfolio_risk.rs:88-98 | an empty manager satisfies the invariant |
| `PortfolioRisk.RiskManager.UpdatePosition` | backtest/src/portfolio_risk.rs:100-112 | replaces one position and keeps the invariant |
| `PortfolioRisk.RiskManager.AddReturn` | backtest/src/portfolio_risk.rs:115-132 | an asset's history is the latest 120 returns with their times; the invariant is kept |
| `PortfolioRisk.RiskManager.UpdateCorrelationMatrix` | backtest/src/portfolio_risk.rs:172-208 | the cache covers every pair of assets with its recomputed entry; exactly the assets with a long enough history get the volatility of that history |
| `PortfolioRisk.RiskManager.RebuildMatrix` | backtest/src/portfolio_risk.rs:173-200 | the pair loops cover all pairs |
| `PortfolioRisk.RiskManager.RefreshVolatilities` | backtest/src/portfolio_risk.rs:202-208 | an asset with enough history gets the annual volatility of it, every other asset keeps what it had |
| `PortfolioRisk.RiskManager.CalculateRiskMetrics` | backtest/src/portfolio_risk.rs:212-275 | computes the specified metrics, coherent whenever no price is negative |
| `SyntheticBook.FromCandle` | backtest/src/synthetic_book.rs:80-150 | the level loop builds the specified book |
| `SyntheticBook.CalculateSlippage` | backtest/src/synthetic_book.rs:157-199 | the walk pays each level for what it fills and the last level for the rest |
| `SyntheticBook.GeometricSeries` | backtest/src/synthetic_book.rs:115-121 | the closed form used as normaliser is the sum of the decay powers |
| `SyntheticBook.PowerSumIsPositiveIff` | backtest/src/synthetic_book.rs:115-127 | for every decay the normaliser is positive exactly when there is a level and the decay is above -1 or the levels are odd in number |
| `SyntheticBook.DepthIsHalfTheVolume` | backtest/src/synthetic_book.rs:108-142 | for every decay each side's depth is half the bar volume exactly when the bar has none, or there is a level, the decay is 1, or at least 1e-12 away from 1, or there is one level, and the decay is above -1 or the levels are odd in number |
| `SyntheticBook.HalfSpreadIsCapped` | backtest/src/synthetic_book.rs:86-104 | the half-spread is the base plus the bar's range term, capped |
| `SyntheticBook.QuotedSpread` | backtest/src/synthetic_book.rs:86-142 | a still bar is quoted at the base spread, a moving one within the widening cap of it, and levels stand half a spread apart, a basis point at the least |
| `SyntheticBook.SlippageIsDistance` | backtest/src/synthetic_book.rs:157-199 | slippage is the distance of the fill price from the mid, in basis points of the mid |
| `SyntheticBook.BookIsOrdered` | backtest/src/synthetic_book.rs:100-142 | asks rise from the best ask, bids fall from the best bid, bid <= mid <= ask, volumes are not negative |
| `SyntheticBook.MarginalCost` | backtest/src/synthetic_book.rs:173-190 | every further unit costs at least the best remaining price |
| `SyntheticBook.AverageCostRises` | backtest/src/synthetic_book.rs:173-190 | on rising levels the average price never falls as the order grows |
| `SyntheticBook.ReflectedCost` | backtest/src/synthetic_book.rs:157-190 | the sell side is the buy side with prices negated |
| `SyntheticBook.BuysPayMore` | backtest/src/synthetic_book.rs:157-199 | for any number of levels larger buys pay a higher average price, at least the best ask, and more slippage |
| `SyntheticBook.SellsReceiveLess` | backtest/src/synthetic_book.rs:157-199 | larger sells receive a lower average price, at most the best bid, and more slippage |
| `SyntheticBook.RoundTripNeverProfits` | backtest/src/synthetic_book.rs:157-199 | an immediate round trip in the same book never profits |
| `Gaps.DetectDataGaps` | backtest/src/engine.rs:1362-1405 | reports one gap per adjacent pair further apart than the threshold, in order, with its severity |
| `Gaps.ReportsNothingIff` | backtest/src/engine.rs:1372-1405 | nothing is reported exactly when no adjacent pair exceeds the threshold |
| `Gaps.ApplyGapFilling` | backtest/src/engine.rs:1499-1595 | the four strategies compute their specified series |
| `Gaps.FillForward` | backtest/src/engine.rs:1510-1573 | the filling loop pushes each original and then its fills |
| `Gaps.PushFills` | backtest/src/engine.rs:1527-1566 | one gap's fills, at whole periods after its start |
| `Gaps.ExcludeInsideGaps` | backtest/src/engine.rs:1574-1595 | keeps the points that lie strictly inside no reported gap |
| `Gaps.FilledPointwise` | backtest/src/engine.rs:1510-1573 | every original stays, in order, and between two of them are exactly the fills of their gap |
| `Gaps.FillTimes` | backtest/src/engine.rs:1529-1534 | every fill lies strictly between its neighbours |
| `Gaps.FilledIsSettled` | backtest/src/engine.rs:1510-1573 | after filling, neighbours of sorted data are in order and need no more fills |
| `Gaps.FillingIsIdempotent` | backtest/src/engine.rs:1510-1573 | sorted data stays sorted and a second filling changes nothing, whatever the threshold |
| `Gaps.ClosesEveryGapIff` | backtest/src/engine.rs:1362-1573 | filling leaves no reported gap in any sorted data exactly when detection is off or threshold >= 2 * frequency - 1 |
| `Gaps.VolumeIsConserved` | backtest/src/engine.rs:1597-1675 | filling conserves the total volume, for every kind of data point |
| `Gaps.InterpolatedIsWellFormed` | backtest/src/engine.rs:1635-1656 | an interpolated candle has its open and close between its low and high |
| `Gaps.FilledIsWellFormed` | backtest/src/engine.rs:1597-1675 | filling well-formed data gives well-formed data |
| `Gaps.ExclusionKeepsSortedData` | backtest/src/engine.rs:1574-1595 | on sorted data the exclusion strategy removes nothing |
| `GapLines.FillsAreEvenlySpaced` | backtest/src/engine.rs:1635-1665 | interpolated fills climb from one neighbour to the other in equal steps |
| `GapLines.FillsLieOnLineIff` | backtest/src/engine.rs:1527-1665 | between two trades on a line the fills lie on it exactly when the price does not move or the gap is a whole number of periods |
| `GapLines.ForwardFillLooksBack` | backtest/src/engine.rs:1597-1632 | forward filling repeats the earlier neighbour without volume and never depends on what the later one says |
| `GapLines.FillsAreMarked` | backtest/src/engine.rs:1527-1675 | fills carry no volume, trades or value and stand whole periods after their neighbour |
| `GapLines.ThresholdTruncates` | backtest/src/engine.rs:1366-1370 | the threshold is frequency times multiplier less its fraction |
| `GapLines.SeverityRises` | backtest/src/engine.rs:1380-1395 | a longer gap is never less severe; severity rises past two, five and ten periods |
| `Stitching.Stitch` | backtest/src/engine.rs:1156-1178 | the chaining loop computes the specified curve |
| `Stitching.PushWindow` | backtest/src/engine.rs:1161-1175 | one window is appended moved to the chain's end, without its first point |
| `Stitching.StitchingKeepsIncrements` | backtest/src/engine.rs:1156-1178 | the stitched curve has the increments of all windows in order, starts where the first usable window starts, and is empty exactly when none is usable |
| `Stitching.StitchedLengthAndChange` | backtest/src/engine.rs:1156-1178 | length = 1 + sum of (len - 1); last - first = sum of the windows' changes |
| `Stitching.BuyAndHoldEnds` | backtest/src/engine.rs:1084-1114 | a benchmark has the requested length or none, starts at the capital and ends at the last price |
| `Stitching.StitchBenchmark` | backtest/src/engine.rs:1177-1196 | the benchmark loop and its length test compute the specified curve |
| `Stitching.BenchmarkIsAllOrNothing` | backtest/src/engine.rs:1084-1196 | the benchmark is emitted, aligned with the strategy curve, exactly when every contributing window has one, and otherwise is empty |
| `LimitQueue.Queue.constructor` | backtest/src/python_simulation.rs:1373-1388 | a queue holds the given orders |
| `LimitQueue.Queue.FillPending` | backtest/src/python_simulation.rs:1788-1987 | the in-place loop with swap-removal computes the specified pass and its counters |
| `LimitQueue.SwapRemoveElements` | backtest/src/python_simulation.rs:1972-1981 | swap-removal drops one element and keeps the others as a multiset |
| `LimitQueue.RunKeepsSound` | backtest/src/python_simulation.rs:1815-1985 | every position looked at keeps orders, volume, eligibility and conservation |
| `LimitQueue.PassIsSound` | backtest/src/python_simulation.rs:1788-1987 | only eligible orders are filled, matched volume stays within the share, all other orders are untouched as a multiset, at most one is partial, and quantity is conserved up to a dust per fill |
| `LimitQueue.NothingEligibleIsMissed` | backtest/src/python_simulation.rs:1815-1985 | while volume is left, no eligible order stays in the queue, not even one moved by a removal |
| `LimitQueue.AmpleVolumeFillsAll` | backtest/src/python_simulation.rs:1815-1985 | a tick with more volume than the eligible orders ask for fills them all in full and leaves the rest as they were |
| `LimitQueue.ConstrainedIsCounted` | backtest/src/python_simulation.rs:1842-1852 | the constraint counter is the eligible orders left behind plus those removed with dust left |
| `LimitFills.FillsAreWithinLimits` | backtest/src/python_simulation.rs:1818-1836 | every fill is a buy at or below its limit or a sell at or above it, strictly under adverse selection, no earlier than the latency |
| `LimitFills.UnreachedOrderStays` | backtest/src/python_simulation.rs:1815-1985 | an order whose limit the tick does not reach is still in the queue, unchanged |
| `LimitFills.AmpleVolumeFillsIff` | backtest/src/python_simulation.rs:1815-1985 | with ample volume an order is filled exactly when the tick is within its limit |
| `LimitFills.BetterTickFillsToo` | backtest/src/python_simulation.rs:1815-1985 | an order that fills at a tick fills at any later tick at least as good for its side, given the volume |
| `LimitFills.FillsWithinShare` | backtest/src/python_simulation.rs:1788-1985 | what a tick matches stays within the configured share of its volume, and what stays of an order is never dust |
| `RollingWindows.TrimmingEveryPush` | backtest/src/rolling_window.rs:31-45 | trimming after every push keeps the last n of everything pushed |
| `RollingWindows.OverwriteOldest` | backtest/src/rolling_window.rs:38-44 | overwriting the oldest slot of a full ring drops the front and appends at the back |
| `RollingWindows.RollingWindow.constructor` | backtest/src/rolling_window.rs:20-28 | empty, with a capacity of 0 taken as 1 |
| `RollingWindows.RollingWindow.Push` | backtest/src/rolling_window.rs:31-45 | the window holds exactly the last `capacity` items ever pushed |
| `RollingWindows.RollingWindow.AsSlices` | backtest/src/rolling_window.rs:48-57 | two runs that join to those items, oldest first |
| `RollingWindows.RollingWindow.ToVec` | backtest/src/rolling_window.rs:61-67 | those items, oldest first |
| `RollingWindows.RollingWindow.Last` | backtest/src/rolling_window.rs:80-89 | the most recent push, none before any |
| `VolumeWindows.WindowSlides` | backtest/src/simulation.rs:115-128 | expiring the previous window after a push gives the filter of the whole history |
| `VolumeWindows.Expire` | backtest/src/simulation.rs:120-128 | popping the front filters the window and takes exactly the popped volumes from the sum |
| `VolumeWindows.VolumeTracker.constructor` | backtest/src/simulation.rs:66-84 | empty windows satisfy the invariant |
| `VolumeWindows.VolumeTracker.InitializeStartingVolume` | backtest/src/simulation.rs:102-111 | gives an exchange without trades its starting volume |
| `VolumeWindows.VolumeTracker.UpdateMarketVolume` | backtest/src/simulation.rs:116-137 | the window is the last hour of all trades seen, and the average its sum a minute |
| `VolumeWindows.VolumeTracker.Update30dVolume` | backtest/src/simulation.rs:154-179 | the volume is the starting volume plus the last thirty days; the clamp is a no-op for non-negative fills; other exchanges are untouched |
| `OrderTracking.CompletedAtMostOnce` | backtest/src/simulation.rs:218-231 | an order completes at most once, however many fills name it |
| `OrderTracking.LateAndTimely` | backtest/src/simulation.rs:475-512 | classifying, rejecting and executing together remove exactly the orders the fills name |
| `OrderTracking.OrderBookkeeping.constructor` | backtest/src/simulation.rs:66-84 | empty bookkeeping satisfies the invariant |
| `OrderTracking.OrderBookkeeping.PlaceOrder` | backtest/src/simulation.rs:916-934 | an order placed is active and tracked, unfilled |
| `OrderTracking.OrderBookkeeping.SweepBook` | backtest/src/simulation.rs:945-1026 | the immediate matching of a market order consumes orders without telling the active ids, the trackers or the counters |
| `OrderTracking.OrderBookkeeping.CancelAll` | backtest/src/simulation.rs:726-741 | cancelling empties both structures and reports every active order as cancelled; the reported orders that the book had consumed are exactly those a market order swept |
| `OrderTracking.SweptOrderIsCancelled` | backtest/src/simulation.rs:726-1026 | a market order filled at once is not counted as filled and is then reported as cancelled: a concrete run |
| `OrderTracking.OrderBookkeeping.TrackFill` | backtest/src/simulation.rs:218-231 | the first fill counts once, on the order's side |
| `OrderTracking.OrderBookkeeping.Classify` | backtest/src/simulation.rs:475-501 | splits fills into those of orders old enough and the orders rejected for latency |
| `OrderTracking.OrderBookkeeping.Execute` | backtest/src/simulation.rs:550-596 | kept fills drop their orders and count each executed order once |
| `OrderTracking.CompletionKeepsConsistent` | backtest/src/simulation.rs:218-231 | an order that leaves with its one fill counted on its side keeps the bookkeeping consistent |
| `OrderTracking.SecondFillCountsNothing` | backtest/src/simulation.rs:218-231 | once an order has been filled, further fills count on neither side |
| `OrderTracking.OrderBookkeeping.CompleteOne` | backtest/src/simulation.rs:577-579 | an executed fill is counted before its order is dropped |
| `OrderTracking.OrderBookkeeping.DropOne` | backtest/src/simulation.rs:565-570 | an order that leaves unfilled leaves both structures |
| `OrderTracking.OrderBookkeeping.Consume` | backtest/src/simulation.rs:565-579 | one fill drops its order whether or not it executed |
| `OrderTracking.OrderBookkeeping.MatchTrade` | backtest/src/simulation.rs:470-596 | after any trade active ids = tracked orders, filled = bid-filled + ask-filled, and filled + resting never exceeds placed |
| `OrderTracking.OrderBookkeeping.DropAll` | backtest/src/simulation.rs:503-511 | rejected orders leave both structures |
| `IndicatorCache.Collect` | backtest/src/indicator_precompute.rs:65-97 | one pass fills the single array and the suffix buffers as specified |
| `IndicatorCache.Push` | backtest/src/indicator_precompute.rs:79-91 | each pair is pushed to its buffer, a new one padded to the bar |
| `IndicatorCache.FromCandlesAndBindings` | backtest/src/indicator_precompute.rs:42-116 | the loops over bindings and periods build the specified cache |
| `IndicatorCache.AddPeriod` | backtest/src/indicator_precompute.rs:59-111 | one instance adds its arrays, leaving out blank ones |
| `IndicatorCache.LandingIsEarly` | backtest/src/indicator_precompute.rs:79-91 | a value named at a bar lands at that bar of its buffer exactly when its suffix did not pause before, and otherwise earlier |
| `IndicatorCache.ValueIsStored` | backtest/src/indicator_precompute.rs:65-97 | a value stays where it landed |
| `IndicatorCache.StoredIsDirectIff` | backtest/src/indicator_precompute.rs:79-104 | the array stored for a suffix, named at most once a bar, equals the values read bar by bar exactly when no number follows a pause |
| `IndicatorCache.PauseShiftsBuffer` | backtest/src/indicator_precompute.rs:79-97 | a suffix that pauses shifts its later values: a concrete case |
| `FastSignals.EvaluateRuleSet` | backtest/src/fast_signal_eval.rs:73-97 | all or any of the rules; none never fire |
| `FastSignals.EvaluateRules` | backtest/src/fast_signal_eval.rs:51-71 | the bar loop fills the specified signals; the first bar holds, conflicts hold |
| `FastSignals.LookupsAgree` | backtest/src/fast_signal_eval.rs:140-164 | every lookup agrees with recomputing the indicator, up to blank arrays left out |
| `FastSignals.CachedSignalsAreDirect` | backtest/src/fast_signal_eval.rs:51-164 | for every rule set, parameters and bar, evaluation through the cache equals evaluation on recomputed indicators |
| `FastSignals.ExchangedRulesNegate` | backtest/src/fast_signal_eval.rs:51-71 | exchanging buy and sell rules negates every signal |
| `SignalLaws.CrossoverIsAChange` | backtest/src/fast_signal_eval.rs:104-114 | a crossover fires exactly where one indicator comes to be above the other between two bars on which both are known |
| `SignalLaws.CrossoversMirror` | backtest/src/fast_signal_eval.rs:104-124 | crossing below is crossing above seen from the other indicator |
| `SignalLaws.CrossoverNeverRepeats` | backtest/src/fast_signal_eval.rs:104-124 | a crossover never fires on two bars in a row |
| `SignalLaws.CrossoverHasToComeBack` | backtest/src/fast_signal_eval.rs:104-114 | between two firings the indicator has been known not to be above the other |
| `SignalLaws.SilentWhileAbove` | backtest/src/fast_signal_eval.rs:104-124 | once above, and never equal, an indicator stays above and the rule stays silent until it crosses below |
| `SignalLaws.ThresholdFires` | backtest/src/fast_signal_eval.rs:125-134 | a threshold rule fires only on a number strictly on its side |
| `SignalLaws.RaisedThreshold` | backtest/src/fast_signal_eval.rs:125-134 | raising a threshold never silences a rule below it nor wakes one above it |
| `SignalLaws.DefaultBandIsSilent` | backtest/src/fast_signal_eval.rs:125-134 | thresholds not set are 30 and 70, and nothing between fires |
| `SignalLaws.MissingNeverFires` | backtest/src/fast_signal_eval.rs:98-164 | no rule fires on the first bar or on a missing number |
| `SignalLaws.AllIsStricterThanAny` | backtest/src/fast_signal_eval.rs:73-97 | needing all rules is stricter than needing any; no rules never fire |
| `SignalLaws.OneMoreRule` | backtest/src/fast_signal_eval.rs:73-97 | one more rule narrows a set that needs all and widens one that needs any, by exactly its own bars |
| `SignalLaws.BuyRulesOnlyBuy` | backtest/src/fast_signal_eval.rs:51-71 | buy rules alone give buys, exactly on the bars on which they fire, and never a sell |
| `SignalLaws.CrossoverBuysOnce` | backtest/src/fast_signal_eval.rs:51-124 | a strategy that buys on a crossover never buys on two bars in a row |
| `SignalLaws.ConflictHolds` | backtest/src/fast_signal_eval.rs:60-70 | buy and sell rules that fire on the same bar cancel out |
| `SignalLaws.PeriodsSaturate` | backtest/src/fast_signal_eval.rs:146-148 | a number becomes a period by cutting off its fraction, within the width of an unsigned integer |
| `SignalLaws.PeriodIsItsParameter` | backtest/src/fast_signal_eval.rs:146-148 | the period looked up is the parameter, cut to 32 bits, and zero where it is missing or no number |
| `SignalLaws.FirstDefinitionDecides` | backtest/src/indicator_precompute.rs:47-57 | the first definition of a parameter decides; without one there is none |
| `SignalLaws.RangesAreInclusive` | backtest/src/indicator_precompute.rs:47-59 | both ends of a parameter range are precomputed and nothing outside it |
| `IndicatorSnapshot.ParseDecimal` | backtest/src/indicator_precompute.rs:148-150 | a printed 32-bit period parses back and has no colon |
| `IndicatorSnapshot.PlusSignIsOptional` | backtest/src/indicator_precompute.rs:148-150 | a plus sign before a number is ignored, is no number alone, and a number has to fit 32 bits |
| `IndicatorSnapshot.SingleKeyReadsBack` | backtest/src/indicator_precompute.rs:129-152 | a single key reads back exactly when its name has no colon; otherwise nothing reads as it |
| `IndicatorSnapshot.MultiKeyReadsBack` | backtest/src/indicator_precompute.rs:129-168 | the same for keys with a suffix, which may contain colons |
| `IndicatorSnapshot.ToSerializable` | backtest/src/indicator_precompute.rs:129-141 | collects the arrays under text keys, collisions included |
| `IndicatorSnapshot.FromSerializable` | backtest/src/indicator_precompute.rs:144-168 | collects the arrays whose key reads back |
| `IndicatorSnapshot.RoundTripIff` | backtest/src/indicator_precompute.rs:129-168 | a saved cache is restored unchanged exactly when no indicator name contains a colon |

## Left out

- IEEE arithmetic: rounding, infinities and not-a-number propagation. A feed value is `Missing` or a finite price, an
  array cell is blank or a number, and the root of a negative variance is `None`. Divisions are modelled behind the
  guards the code has; a fill price of exactly zero, where the candle simulator's quotient is not finite, buys nothing.
- Square roots are a function that is non-negative and squares to its argument on the non-negative reals.
- Pairs.RunPairBacktest: needs both closes to be numbers at every tick whose extremes are, because a margin call reads
  the surviving leg's close without checking it (backtest/src/pair_simulation.rs:386-416).
- Baskets.RunBasketBacktest: the same need for every leg's close. It refuses fewer than three legs, so the equivalence
  with the pair engine is one of its tick loop, run on two.
- Hedge-ratio, weight and correlation estimators of the engines and of the portfolio penalty are arbitrary functions of
  their windows; the entry z-score, symbol and exchange names and the formatted exit reason are not modelled.
- CandleEngine.Run: does not model the volatility-targeting overlay's series, which arrives as the size per bar, nor the
  Sharpe ratio; funding intervals are positive.
- PortfolioSim.RunCandleBased: does not model Sharpe and profit factor; holdings arrive in the order the hash map gives.
- MonteCarlo.ShuffleReorders: takes the shuffled order as given, as the shuffle itself belongs to a random library.
- TailRisk.FanChart: sorts by insertion where the code calls a library sort; sorted results are unique.
- The Sharpe figures, block bootstrap lengths and regime labels of the Monte Carlo module: sampling choices and
  one-branch labels around the kernels above.
- PortfolioRisk.RiskManager.CalculateRiskMetrics: does not model the beta to a reference asset, a weighted sum of cached
  values.
- SyntheticBook.BuysPayMore and the other book laws ask for a positive close, ordered extremes and settings that are not
  negative, which the source assumes of its candles.
- The synthetic book's separate market-impact estimate (backtest/src/synthetic_book.rs:205-223): one expression.
- Gaps.ApplyGapFilling: asks for a positive frequency and multiplier, as the configuration promises; times beyond the
  calendar's range and sub-millisecond times are not modelled.
- Walk-forward window generation, optimisation, the information ratio and the Mann-Kendall trend of the stitched curve:
  the first two lie outside this crate's core, the last two are statistics of the curve modelled here.
- LimitQueue.Queue.FillPending: models the queue, the matched volume and the counters; what the portfolio then executes,
  its commission and the trade log are not part of this model, since they never feed back into the queue.
- VarianceSign.ThreeAssetsHaveVarIff: the condition is exact for three assets; for more of them CommonWindowHasVar is
  sufficient, and each of its two conditions is shown to be needed, but no exact condition is given.
- OrderTracking.OrderBookkeeping.SweepBook: does not model the matching of a market order (orderbook/src/order_book.rs:63),
  only which orders it consumed; the book's fills are its input.
- IndicatorCache.StoredIsDirectIff: asks that a bar names a suffix at most once, as every registered indicator does
  (strategy/src/indicator_registry.rs:234-246).
- OrderTracking and VolumeWindows are two slices of one simulation object; order books, risk checks, collectors and
  strategies around them are not part of this model.
- VolumeWindows.VolumeTracker.UpdateMarketVolume: asks for time-ordered trades, as its source comment does.
- IndicatorCache.FromCandlesAndBindings: the indicators themselves, and the substitution of a period into an indicator's
  settings, are an arbitrary function from periods to outputs.
- FastSignals.CachedSignalsAreDirect: asks for distinct binding names, since two bindings with one name share keys, and
  for suffixes of which no number follows a pause, the exact condition of IndicatorCache.StoredIsDirectIff.
- Properties the code does not have, left unclaimed: causality of the candle simulator (its average volume reads the whole
  series), first-in-first-out trade matching, and cost conservation of rebalancing.
- Python bindings, async execution, persistence, exports, configuration loading and data providers.
