# wedge: a model of the two trading simulators and their indicators

The project models three parts of the repository and proves properties of them.

* **The contingent-order engine** (`wedge/backtest2`). Limit, market and stop-loss orders are wired
  into OTO, OCO and OTOCO lists. A pass over a work queue fills orders against a candle; a fill
  triggers pending orders, which join the queue being walked, and cancels siblings anywhere in it.
* **The grid strategy in closed loop with the first backtest** (`wedge/strategy/grid_strategy.cc`
  with `wedge/backtest`). The context walks an ordered map of open orders; a filled order calls the
  strategy, which cancels and inserts entries before the walk goes on.
* **The streaming indicators**: the grid's sliding-window RSI, the RSI over 24 interleaved moving
  averages, and the ring-buffer range.

Each part comes in two forms. The classes (`BacktestEngine.dfy`, `Strategy001.dfy`,
`GridBacktest.dfy`, `Range.dfy`, `InterleavedRsi.dfy`, `SlidingRsi.dfy`) have the fields, loops and
callbacks of the source; every method states its new state through a transition function on values.
Those functions (`Book.dfy`, `GridModel.dfy`, `SlidingRsi.dfy`) carry the theorems.

| file | content |
|---|---|
| `Common.dfy` | sides, statuses, candles; arithmetic shared by the modules |
| `Book.dfy` | orders, fill rules, the engine's state and transitions |
| `BookInvariant.dfy` | what every command keeps: wiring, queue, histories, fill log |
| `Decomposition.dfy` | one pass over the shared queue equals each list stepped alone |
| `PassTheorems.dfy` | completeness, idempotence, tie-break, the trigger assertion, termination |
| `BookRuns.dfy` | whole runs: exclusion, causality, ledger, client protocol |
| `FillPrices.dfy` | when orders fill and what they pay, in prices and amounts |
| `RunDecomposition.dfy` | a whole run equals each list run alone from its placement on |
| `BacktestEngine.dfy`, `Strategy001.dfy` | the engine, its orders and its client as objects |
| `StrategyRuns.dfy` | the client over whole histories: its account, and its live orders |
| `GridModel.dfy`, `GridTheorems.dfy` | grid transitions and their invariant |
| `GridReactions.dfy` | when the grid's orders fill and when it is reopened, in prices and amounts |
| `GridProfit.dfy`, `GridFunding.dfy` | account identities and lattice; exact funding conditions |
| `GridExamples.dfy` | cold-started runs in which an order within the band is rejected |
| `GridBacktest.dfy` | context, broker, account and strategy as objects that call each other |
| `Range.dfy`, `SlidingRsi.dfy`, `InterleavedRsi.dfy` | the indicators |

Amounts and prices are exact reals, ids and counters unbounded integers. Candles are arbitrary, or
where a statement needs it any with `0 < low <= open, close <= high` (`Sound`).

## How the engine's assertion is treated

`wedge/backtest2/backtest_engine.cc:57` asserts that a triggered order is PendingNew.
`CancelOrder` has no status guard, so a client can break that assertion by cancelling a pending order
while its working order is live. The transition functions say what the code does with assertions
compiled out, and the theorems on runs (exclusion, causality, ledger, queue, decomposition) hold for
every command sequence whose ids exist. `BookRuns.AssertSafetyExactly` shows that the assertion is
safe along a run, on every candle, exactly when no command of the run cancels a pending order behind
a live working order; `BookRuns.ProtocolCanBreak` exhibits a run that breaks it. The class keeps the
assertion: its commands accept every client, `ExecuteCancelOrder` states that the engine stays
`Valid` exactly when the client follows the protocol, and `UpdateNewOrders` requires just that the
assertion does not fail in this pass (`PassTheorems.AssertFree`), which of a `Valid` engine holds on
every candle.

## Findings

* The grid is funded across its band only after a placement that rebalances to equal shares
  (`wedge/strategy/grid_strategy.cc:149-153`), and only without commission: then no order inside the
  band is ever rejected (`GridFunding.FundedInBand`, `GridFunding.EveryGridFunded`).
* The minimum-trade placement (`wedge/strategy/grid_strategy.cc:144-147`) buys one volume ahead of equal
  shares. Its own order, and later buys within the band, can be more than there is, without any
  commission (`GridExamples.SmallOpeningRejected`, `GridExamples.SmallGridRejected`). Its first order is
  accepted exactly when (n - 1) q P plus half the gap between cash and position value is not negative
  (`GridFunding.InitialFunded`, `GridFunding.SlackOfPlacement`); the resting pair has exact conditions
  too, and a narrower band, two rungs short on the buying side, is funded when a volume is worth the
  minimum trade (`GridFunding.EveryGridFunded`).
* Commission takes either grid out of funds (`wedge/backtest/backtest_context.cc:87-108`). An open order
  is accepted if and only if the rungs left and the slack of the placement outweigh the commission paid
  so far (`GridFunding.EveryOrderFunded`). In an equal-shares grid that has bought anything the sell to
  the last rung is always rejected, and the grid never reaches it (`GridFunding.LastRungSell`,
  `GridFunding.EveryGridAboveLastRung`). `GridExamples.CommissionBreaksFunding` is a cold start and 22
  flat candles after which a sell is rejected, with the commission 0.001 of
  `wedge/backtest/main.cc:35`.
* `Strategy001` loses base asset by commission only, and its account is exactly the sum over its
  brackets of what their outcomes moved (`StrategyRuns.StrategyAccount`); fed with complete snapshots it
  never has two live working orders (`StrategyRuns.EveryHistory`).
* The interleaved RSI reads the slot whose turn is next (`wedge/indicator/momentum/rsi.h:42`), so the
  latest 23 closes have no influence on it (`InterleavedRsi.RsiIsStale`).
* Until the ring of `Range` is full, its initial zeros count as lows
  (`wedge/indicator/volatility/range.h:11`): the range is then the highest price itself
  (`RangeIndicator.EarlyRange`).
* The exclusion of siblings is about pairs of which both can be live: OTOCO legs, and the pair that
  `add_oco` makes of two fresh orders. The below order of a `NewOcoOrderList` is created PendingNew
  with nothing that triggers it (`wedge/backtest2/backtest_engine.cc:136`), so it never fills
  (`BookRuns.OcoBelowNeverFills`).
* A pass lowers the count of unvisited entries plus pending orders with each visit exactly when the
  assertion of `wedge/backtest2/backtest_engine.cc:57` holds in it (`PassTheorems.VisitMeasure`);
  it ends within one visit per order in any case (`PassTheorems.WalkBounded`).

## Model

| member | source | states |
|---|---|---|
| BacktestEngines.BacktestEngine.constructor | wedge/backtest2/backtest_engine.h:15 | a new engine has the given funds and nothing else, and satisfies the run invariant |
| BacktestEngines.OrderBase.SetStatus | wedge/backtest2/order.cc:5-22 | only Filled cascades: the triggered orders become New and are queued in order, then the cancelled ones become Canceled; nothing else changes |
| BacktestEngines.OrderBase.Update | wedge/backtest2/order.cc:24-74 | an order whose class and side the candle reaches pays, fills and cascades; any other is left alone |
| FillPrices.LiveOrdersOutOfReach | wedge/backtest2/order.cc:24-74 | after a pass every live limit buy or stop-loss sell is priced below the low, every live limit sell or stop-loss buy above the high, and no market order is live |
| FillPrices.SingleFillsExactly | wedge/backtest2/order.cc:24-74 | a live single order fills in a pass if and only if the low comes down, or the high up, to its price; a market order always does |
| FillPrices.PassPaid | wedge/backtest2/order.cc:24-74 | every entry a pass adds is of an order whose price the candle came to, at quantity times that price, or times the close for a market order |
| FillPrices.EveryEntryPaid | wedge/backtest2/backtest_engine.cc:69-82 | in every run each entry of the log was paid so at the candle of one of its passes |
| BacktestEngines.BacktestEngine.OnFill | wedge/backtest2/backtest_engine.cc:42-53 | funds move by the amounts less 1e-4 on the received side, and the fill is logged |
| BacktestEngines.BacktestEngine.OnTrigger | wedge/backtest2/backtest_engine.cc:55-61 | given that all are PendingNew, exactly these orders become New and are appended to the queue in order |
| BacktestEngines.BacktestEngine.OnCancel | wedge/backtest2/backtest_engine.cc:63-67 | exactly these orders become Canceled, whatever their status |
| BacktestEngines.BacktestEngine.UpdateNewOrders | wedge/backtest2/backtest_engine.cc:69-82 | whenever the trigger assertion does not fail on the candle, the walk over the growing queue and the compaction give the state of the transition function; the run invariant and trigger safety are kept |
| BacktestEngines.BacktestEngine.RunQueue | wedge/backtest2/backtest_engine.cc:70-76 | orders triggered during the walk are visited in the same walk, which ends within one visit per order |
| BacktestEngines.BacktestEngine.Compact | wedge/backtest2/backtest_engine.cc:77-81 | exactly the live entries stay, in their order |
| BacktestEngines.BacktestEngine.AddOrder | wedge/backtest2/backtest_engine.cc:7-14 | the order gets the next id and is queued exactly if it is New |
| BacktestEngines.BacktestEngine.AddOrderList | wedge/backtest2/backtest_engine.cc:16-20 | the list gets the next list id |
| BacktestEngines.BacktestEngine.AddOto | wedge/backtest2/backtest_engine.cc:28-31 | one trigger edge and one list entry are added |
| BacktestEngines.BacktestEngine.AddOco | wedge/backtest2/backtest_engine.cc:22-26 | two mutual cancel edges and one list entry are added |
| BacktestEngines.BacktestEngine.AddOtoco | wedge/backtest2/backtest_engine.cc:33-40 | two trigger edges, above first, two mutual cancel edges and one list entry are added |
| BacktestEngines.BacktestEngine.ExecuteCancelOrder | wedge/backtest2/backtest_engine.cc:84-86 | any order of the table becomes Canceled, whatever its status, and the run invariant is kept; trigger safety is kept if and only if the client follows the protocol |
| BacktestEngines.BacktestEngine.ExecuteCancelOrderList | wedge/backtest2/backtest_engine.cc:88-92 | every order of the list is Canceled; the invariant and trigger safety are kept without a protocol |
| BacktestEngines.BacktestEngine.ExecuteNewOrder | wedge/backtest2/backtest_engine.cc:94-121 | a single live order is placed and the invariant kept |
| BacktestEngines.BacktestEngine.ExecuteNewOrderList | wedge/backtest2/backtest_engine.cc:123-160 | the three list kinds are placed with the statuses and edges of the source, and the invariant kept |
| FillPrices.PlacementCreates | wedge/backtest2/backtest_engine.cc:94-160 | which terms the new ids of each placement carry, and which of them are live and queued |
| BacktestEngines.BacktestEngine.PlaceLiveOco | wedge/backtest2/backtest_engine.h:20-25 | a client that adds two orders and wires them with add_oco gets two live siblings |
| BookInvariant.StepKeepsInv | wedge/backtest2/backtest_engine.cc:7-160 | every command and every pass keeps the invariant, appends to the log, and rewires nothing |
| BookInvariant.FillKeepsExclusion | wedge/backtest2/order.cc:16-21 | a fill leaves no two siblings filled, and the sibling of a filled order Canceled |
| BookInvariant.FillKeepsCausal | wedge/backtest2/order.cc:10-15 | a fill makes pending orders live only behind their own working order's fill |
| BookInvariant.FillKeepsHistory | wedge/backtest2/backtest_engine.cc:55-61 | no order is activated twice, and the queue stays the activation history up to dead orders |
| BookRuns.ExecKeepsInv | wedge/backtest2/backtest_engine.cc:7-160 | the invariant holds after every legal command sequence |
| BookRuns.RunQueueAgrees | wedge/backtest2/backtest_engine.cc:7-14 | in every run the queue has no duplicates, every New order, no PendingNew one, and its live entries in activation order |
| BookRuns.RunExclusion | wedge/backtest2/backtest_engine.cc:22-40 | in every run at most one of two siblings is in the fill log, and the other is then Canceled |
| BookRuns.MutualExclusion | wedge/backtest2/backtest_engine.cc:22-40 | the same for every state satisfying the invariant, in both directions |
| BookRuns.OcoBelowNeverFills | wedge/backtest2/backtest_engine.cc:134-138 | the below order of a NewOcoOrderList is never live and never fills, whatever the run |
| BookRuns.ExclusionForever | wedge/backtest2/backtest_engine.cc:22-40 | once an order has filled, no later command sequence revives or fills its sibling |
| BookRuns.LogCausal | wedge/backtest2/backtest_engine.cc:55-61 | a pending order's fill comes strictly after its working order's fill, and no order fills twice |
| BookRuns.Ledger | wedge/backtest2/backtest_engine.cc:42-53 | in every run base and quote are the initial funds plus the commission-adjusted sums over the log |
| FillPrices.LedgerInNumbers | wedge/backtest2/backtest_engine.cc:42-53 | the same with the 0.0001 written out, for orders of any quantity |
| BookRuns.StepSafety | wedge/backtest2/backtest_engine.cc:84-92 | a command keeps every pending order of a live working order PendingNew if and only if it follows the client protocol |
| BookRuns.AssertSafetyExactly | wedge/backtest2/backtest_engine.cc:57 | the assertion is safe at every point of a run and on every candle if and only if every command follows the protocol |
| BookRuns.ProtocolCanBreak | wedge/backtest2/backtest_engine.cc:84-86 | cancelling the pending order of a fresh OTO pair makes the book unsafe |
| PassTheorems.AssertFreeExactly | wedge/backtest2/backtest_engine.cc:55-61 | the next pass is free of assertion failures on all candles if and only if the pending orders of live working orders are PendingNew |
| PassTheorems.PassComplete | wedge/backtest2/backtest_engine.cc:69-82 | after a pass no live order is left that the candle reaches, including those triggered during the pass |
| PassTheorems.PassIdempotent | wedge/backtest2/backtest_engine.cc:69-82 | a second pass with the same candle changes nothing |
| PassTheorems.PassQueue | wedge/backtest2/backtest_engine.cc:77-81 | after a pass the queue is exactly the live orders in activation order |
| PassTheorems.TieBreak | wedge/backtest2/backtest_engine.cc:33-40 | when both legs have their chance in a pass and are reached, above fills and below is Canceled |
| PassTheorems.VisitMeasure | wedge/backtest2/backtest_engine.cc:69-76 | unvisited entries plus pending orders decrease in an iteration, although the queue grows, if and only if the assertion holds in it |
| PassTheorems.WalkBounded | wedge/backtest2/backtest_engine.cc:69-76 | whatever the client has cancelled, the growing queue never outgrows the table, so the walk ends |
| Decomposition.PassDecomposes | wedge/backtest2/backtest_engine.cc:42-82 | whatever the interleaving of lists in the queue, a pass leaves every order as its list stepped alone (working, above, below) would, and moves the funds by the sum over the lists |
| RunDecomposition.RunDecomposes | wedge/backtest2/backtest_engine.cc:42-160 | in every run, whatever else it does, each list ends with the statuses and the fills that the passes and cancellations after its placement give that list alone |
| RunDecomposition.RunMeetsAlone | wedge/backtest2/backtest_engine.cc:42-160 | the same from any point of a run on |
| RunDecomposition.EveryOrderPlaced | wedge/backtest2/backtest_engine.cc:94-160 | every order of every run belongs to a list placed by one of its commands |
| RunDecomposition.FundsByOrder | wedge/backtest2/backtest_engine.cc:42-53 | in every run base and quote are the initial funds plus the sums over the orders of what their own fills paid |
| Decomposition.RunMeetsFate | wedge/backtest2/backtest_engine.cc:69-76 | from any point of the walk, every order ends as forecast from its own list |
| Decomposition.OthersFireAlike | wedge/backtest2/order.cc:5-22 | a visit settles the visited order and changes nothing about which other orders will fill |
| Strategy001Client.Strategy001.constructor | wedge/strategy2/strategy001.h:22-25 | the range spans 24 candles and the share of it is 0.1 |
| Strategy001Client.Strategy001.OnEvent | wedge/strategy2/strategy001.h:27-57 | the unstarted lists of the snapshot are withdrawn, the range takes the candle, and one bracket is placed a tenth of the range below the open |
| Strategy001Client.LimitPriceInFull | wedge/strategy2/strategy001.h:34-38 | the price is the open less a tenth of the largest of the latest 24 highs minus the smallest of the latest 24 lows, before 24 candles less a tenth of the highest high, and never above the open on sound candles |
| Strategy001Client.BracketIsPlaced | wedge/strategy2/strategy001.h:40-56 | a limit buy of one is live at the price, with a stop-loss sell at 0.9995 and a limit sell at 1.0005 of it pending behind it |
| StrategyRuns.EventPlaces | wedge/strategy2/strategy001.h:27-57 | handling an event places that bracket at that price |
| Strategy001Client.FilledStaysFilled | wedge/strategy2/strategy001.h:27-32 | a list with a filled order is never withdrawn |
| StrategyRuns.EventIsRun | wedge/strategy2/strategy001.h:27-57 | handling an event is a legal run of bracket commands with exactly one placement |
| StrategyRuns.BracketRunsObey | wedge/strategy2/strategy001.h:27-57 | every run of the strategy follows the client protocol |
| StrategyRuns.StrategyAccount | wedge/strategy2/strategy001.h:40-56 | on any candles base and quote are exactly the initial funds plus what each bracket has moved by its outcome: idle, holding, stopped or earned |
| StrategyRuns.StrategyBound | wedge/strategy2/strategy001.h:40-56 | n brackets leave at least the initial base minus n times 1e-4 on any candles |
| StrategyRuns.NeverTwoWorking | wedge/strategy2/strategy001.h:27-57 | with complete snapshots, however events and passes interleave, at most one working order is live |
| StrategyRuns.HistoryIsRun | wedge/strategy2/strategy001.h:27-57 | a history of events and passes is a legal run of the engine |
| StrategyRuns.EveryHistory | wedge/strategy2/strategy001.h:27-57 | over every such history: one live working order at most, the exact account, and n events cost at most n commissions of base |
| GridBacktest.Account.UpdateBalance | wedge/common/account.h:13 | the balance moves by the value, the position stays |
| GridBacktest.Account.UpdatePosition | wedge/common/account.h:14 | the position moves by the value, the balance stays |
| GridBacktest.BacktestContext.AddOrder | wedge/backtest/backtest_context.cc:18-22 | the order enters the map under the next index |
| GridBacktest.BacktestContext.CancelOrder | wedge/backtest/backtest_context.h:36 | the entry, if there is one, leaves the map |
| GridBacktest.BacktestContext.ExecuteBuyOrder | wedge/backtest/backtest_context.cc:87-96 | rejected exactly if the cost exceeds the balance; otherwise cash pays and the position grows less commission |
| GridBacktest.BacktestContext.ExecuteSellOrder | wedge/backtest/backtest_context.cc:98-108 | rejected exactly if the quantity exceeds the position; otherwise the position pays and cash grows less commission |
| GridBacktest.BacktestContext.UpdateOrder | wedge/backtest/order/limit_buy_order.cc:22-27 | a buy fills exactly if the low reaches its price and it is affordable, a sell likewise with the high |
| GridReactions.ExecutesExactly | wedge/backtest/order/limit_sell_order.cc:22-27 | an order executes if and only if the low comes down to a buy, or the high up to a sell, and there is cash, or units, enough |
| GridReactions.SellFills | wedge/backtest/backtest_context.cc:32-46 | the open sell fills first, at its price and quantity, when the high and the position reach |
| GridReactions.BuyFills | wedge/backtest/backtest_context.cc:32-46 | otherwise the open buy fills when the low comes down to it and the cash is enough |
| GridReactions.NothingFills | wedge/backtest/backtest_context.cc:32-46 | otherwise the candle changes nothing |
| GridReactions.TickSettles | wedge/backtest/backtest_context.cc:80-108 | a whole turn moves the account by exactly that one fill |
| GridReactions.EveryFillAllowed | wedge/backtest/backtest_context.cc:80-85 | in every backtest each fill since the latest placement was allowed by a candle of the stream: low at or below a buy, high at or above a sell |
| GridBacktest.BacktestContext.UpdateOrders | wedge/backtest/backtest_context.cc:32-46 | the re-entrant walk over the map gives the state of the scan function and keeps the two views of the orders in agreement |
| GridBacktest.BacktestContext.TryEntry | wedge/backtest/backtest_context.cc:37-45 | an executing entry is settled, reported and erased; it is still there after the callback, so that the erase is valid |
| GridBacktest.BacktestContext.Run | wedge/backtest/backtest_context.cc:80-85 | on every candle stream with positive closes the objects end in the state of the run function, within the invariant |
| GridBacktest.Backtest | wedge/backtest/main.cc:35-48 | the objects, constructed and run over any stream with positive closes, end with the funds of the run function, never negative on sound candles from a sane start |
| GridBacktest.LoadIndex | wedge/strategy/grid_strategy.cc:66-74 | the index is fed the prices of the configuration in order |
| SlidingRsi.PreloadTracks | wedge/strategy/grid_strategy.cc:66-74 | the loaded index has seen exactly the configured prices, with a period of 20 |
| GridBacktest.BacktestBroker.LimitBuyOrder | wedge/backtest/backtest_broker.cc:5-10 | a buy enters the context's map and its index is returned |
| GridBacktest.BacktestBroker.LimitSellOrder | wedge/backtest/backtest_broker.cc:12-17 | a sell enters the context's map and its index is returned |
| GridBacktest.BacktestBroker.Cancel | wedge/backtest/backtest_broker.cc:29-32 | the entry leaves the context's map |
| GridBacktest.BacktestBroker.GetAccount | wedge/backtest/backtest_broker.cc:34 | the caller gets a fresh copy of the account |
| GridBacktest.GridStrategy.CancelAllOrders | wedge/strategy/grid_strategy.cc:156-165 | both recorded orders leave the map and the records are empty |
| GridBacktest.GridStrategy.PlaceBuyOrder | wedge/strategy/grid_strategy.cc:167-171 | given no buy is on record, one enters map and record |
| GridBacktest.GridStrategy.PlaceSellOrder | wedge/strategy/grid_strategy.cc:173-177 | given no sell is on record, one enters map and record |
| GridBacktest.GridStrategy.PlaceOrder | wedge/strategy/grid_strategy.cc:179-183 | a sell one spacing above, then a buy one spacing below |
| GridBacktest.GridStrategy.PlaceInitialOrders | wedge/strategy/grid_strategy.cc:133-154 | one order towards equal shares, or one grid volume below the minimum trade |
| GridBacktest.GridStrategy.OnOrderFilled | wedge/strategy/grid_strategy.cc:113-130 | the filled order is on record, its partner is cancelled, and a new pair rests around its price |
| GridBacktest.GridStrategy.Update | wedge/strategy/grid_strategy.cc:76-111 | withdraw on a low index, open the grid when idle, reopen it around a close outside the band |
| GridReactions.TickReopensExactly | wedge/strategy/grid_strategy.cc:76-111 | with a full index that is not low, a candle reopens the grid at its close, with one order there, if and only if nothing was open or the close left b(1 - s n) to b(1 + s n); otherwise baseline and open orders stay |
| GridReactions.TickWaits | wedge/strategy/grid_strategy.cc:76-82 | until the index is full the strategy changes nothing |
| GridReactions.EveryOpenGridWithin | wedge/strategy/grid_strategy.cc:93-111 | after every stream, while an order is open the latest close lies in that interval |
| GridModel.CallbackSafe | wedge/backtest/backtest_context.cc:41-43 | the callback keeps the entry the iterator stands on and inserts only at or above the snapshotted counter |
| GridModel.FillKeepsAgree | wedge/strategy/grid_strategy.cc:114-130 | after a fill and its callback map and records agree again, and only new entries are left |
| GridTheorems.ScanIsOnce | wedge/backtest/backtest_context.cc:32-46 | the walk equals trying the sell, then the buy, once; at most one order fills per candle |
| GridTheorems.TickKeeps | wedge/backtest/backtest_context.cc:80-85 | one turn keeps agreement, chain and equal shares for any configuration, and on a sound candle solvency |
| GridTheorems.RunKeeps | wedge/backtest/backtest_context.cc:80-85 | every candle stream with positive closes keeps them, every sound one solvency too |
| GridTheorems.EveryBacktest | wedge/backtest/backtest_context.cc:80-108 | from any start, at most two orders are open and the records match the map; on sound candles, with commission in [0, 1], balance and position are never negative |
| GridTheorems.FillKeepsChain | wedge/strategy/grid_strategy.cc:114-130 | every fill since the last placement is one spacing from the one before it and settles its funds |
| GridTheorems.SettleKeepsSolvent | wedge/backtest/backtest_context.cc:87-108 | an accepted order leaves balance and position non-negative |
| GridTheorems.TickExtendsHistory | wedge/strategy/grid_strategy.cc:76-111 | until the next placement baseline, volume and spacing stay and the fill history grows by at most one per candle |
| GridTheorems.WithdrawnWhenLow | wedge/strategy/grid_strategy.cc:86-91 | no order is open after a candle that leaves the index below 20 |
| GridTheorems.WithdrawnWhenFalling | wedge/strategy/grid_strategy.cc:76-91 | after any stream, no order is open if over the window of the whole price history losses exceed four times the gains |
| GridTheorems.WithdrawnAfterFall | wedge/strategy/grid_strategy.cc:16-46 | after any stream, no order is open if the latest period + 1 closes never rise and end lower than they began |
| GridProfit.ProfitIdentity | wedge/strategy/grid_strategy.cc:114-130 | balance = first balance - q P k + q s (k(k+1)/2 + sells) - c (value sold), with k the net buys since the first fill |
| GridProfit.PositionIdentity | wedge/backtest/backtest_context.cc:87-108 | position = first position + q k - c q (number of later buys) |
| GridProfit.LadderInFull | wedge/strategy/grid_strategy.cc:179-183 | the ladder term of the profit identity in closed form |
| GridProfit.EveryAccount | wedge/backtest/backtest_context.cc:80-108 | both identities, with k(k+1)/2, the sells and the buys written out, after every candle stream with positive closes, for any funds, commission and spacing |
| GridProfit.FillOnLattice | wedge/strategy/grid_strategy.cc:179-183 | every fill price is the baseline minus the spacing times the net number of buys up to it |
| GridProfit.RestingOnLattice | wedge/strategy/grid_strategy.cc:179-183 | the resting pair is one rung below and one above the latest fill |
| GridProfit.RungOfBalance | wedge/strategy/grid_strategy.cc:113-125 | the order balance and the side of the first fill determine the rung |
| GridProfit.EveryLattice | wedge/strategy/grid_strategy.cc:113-130 | after every candle stream with positive closes, every fill price and both resting prices are the baseline less the spacing times the order balance of that moment, shifted by the side of the first fill |
| GridProfit.RoundTrip | wedge/strategy/grid_strategy.cc:114-130 | back on the first rung without commission, the position is restored and each sell has earned one spacing per unit |
| GridFunding.InitialFunded | wedge/strategy/grid_strategy.cc:133-154 | the equal-shares order is always affordable, and without commission leaves balance = position times price; the minimum-trade order is affordable if and only if (n - 1) q P plus the slack is not negative |
| GridFunding.InitialFundedExactly | wedge/strategy/grid_strategy.cc:133-154 | the condition for the order of either placement, for any funds, the negative ones too |
| GridFunding.SlackOfPlacement | wedge/strategy/grid_strategy.cc:144-147 | the slack of a minimum-trade placement is half the gap between cash and position value, opposite in units, and below 7 |
| GridFunding.FundedInBand | wedge/strategy/grid_strategy.cc:133-154 | without commission a resting order within gridCount rungs is accepted if and only if the placement was one of equal shares, or the cash (or units) ahead and the slack of a minimum-trade placement are not negative |
| GridFunding.EveryGridFunded | wedge/backtest/backtest_context.cc:80-108 | after every sound stream without commission, no open order is rejected within the band of an equal-shares grid, nor within the narrower band of a minimum-trade grid whose volume is worth the minimum trade |
| GridFunding.EveryOrderFunded | wedge/backtest/backtest_context.cc:80-108 | after every stream with positive closes, for any funds, commission and spacing, an open order is accepted if and only if the condition of its placement and side holds |
| GridFunding.SellFundedExactly | wedge/backtest/backtest_context.cc:98-101 | with any commission and either placement, the resting sell is accepted if and only if the rungs left and the slack cover the commission on the first buy and q times the later buys |
| GridFunding.BuyFundedExactly | wedge/backtest/backtest_context.cc:87-91 | with any commission and either placement, the resting buy is accepted if and only if the cash left on the next rung and the slack cover the commission on everything sold |
| GridFunding.LastRungSell | wedge/backtest/backtest_context.cc:98-101 | the sell to rung -gridCount is accepted if and only if the lead of the placement and its slack cover the commission in units; for equal shares, if and only if there is no commission or nothing has been bought |
| GridFunding.EveryGridAboveLastRung | wedge/backtest/backtest_context.cc:80-108 | after every sound stream with a commission, an equal-shares grid that has bought anything is above rung -gridCount |
| GridExamples.CommissionBreaksFunding | wedge/backtest/main.cc:35 | started cold with commission 0.001, 22 flat candles leave a sell inside the band that is rejected |
| GridExamples.SmallOpeningRejected | wedge/strategy/grid_strategy.cc:144-147 | a run without commission in which the order of a minimum-trade placement is rejected |
| GridExamples.SmallGridRejected | wedge/strategy/grid_strategy.cc:144-147 | a run without commission in which a later buy inside the band of such a grid is rejected |
| SlidingRsi.RelativeStrengthIndex.Update | wedge/strategy/grid_strategy.cc:16-38 | the sums stay those over the last period moves of the price history |
| Numbers.MovesElement | wedge/strategy/grid_strategy.cc:21-24 | a rise counts in full as a gain, a fall in full as a loss, and never both |
| SlidingRsi.RelativeStrengthIndex.Reading | wedge/strategy/grid_strategy.cc:40-46 | no value until the window is full, then the percentage, with zero total loss told apart |
| SlidingRsi.ReadingInFull | wedge/strategy/grid_strategy.cc:40-46 | the reading of a full window is 100 g / (g + l), with no number when there are no moves at all |
| SlidingRsi.RisingReads | wedge/strategy/grid_strategy.cc:40-46 | a full window that never falls and ends higher reads 100 |
| SlidingRsi.PushTracks | wedge/strategy/grid_strategy.cc:16-38 | window and running sums equal the moves of the last period steps of the whole history |
| SlidingRsi.SumsTelescope | wedge/strategy/grid_strategy.cc:29-37 | gains minus losses are the last price minus the price period steps earlier |
| SlidingRsi.LowExactly | wedge/strategy/grid_strategy.cc:40-46 | the index is below 20 if and only if the window is full and losses exceed four times the gains |
| InterleavedRsi.ExponentialMovingAverage.Update | wedge/indicator/average/ema_algo.h:10-17 | the value is the fold of the recurrence over all inputs |
| InterleavedRsi.EmaBounded | wedge/indicator/average/ema_algo.h:7-17 | the average stays between the bounds of its inputs |
| InterleavedRsi.EmaInFull | wedge/indicator/average/ema_algo.h:7-17 | the average is the weighted sum of its inputs: the first in full, the others by 2 / (period + 1), each reduced by that share with every later input |
| InterleavedRsi.RelativeStrengthIndex.Update | wedge/indicator/momentum/rsi.h:20-39 | slot i holds the averages of the gains and losses of the closes at positions congruent to i modulo 24 |
| InterleavedRsi.SlotElements | wedge/indicator/momentum/rsi.h:20-25 | entry j of slot i is the close at position 24 j + i, and the slot holds all of those |
| InterleavedRsi.RelativeStrengthIndex.Value | wedge/indicator/momentum/rsi.h:41-47 | the reading is the one of the whole history's next slot and lies in [0, 100) |
| InterleavedRsi.ReadingInFull | wedge/indicator/momentum/rsi.h:41-47 | the reading is 100 g / (g + l + 1e-5): zero without gains, above 50 if and only if gains exceed losses plus 1e-5 |
| InterleavedRsi.RsiInFull | wedge/indicator/momentum/rsi.h:41-47 | the same of the averages over the next slot of the whole history |
| InterleavedRsi.RsiIsStale | wedge/indicator/momentum/rsi.h:41-47 | histories that differ only in the latest 23 closes give the same reading |
| RangeIndicator.Range.Update | wedge/indicator/volatility/range.h:13-17 | for any rotation the rings hold the last period highs and lows |
| RangeIndicator.Range.Value | wedge/indicator/volatility/range.h:19-21 | the value is the largest high minus the smallest low of the window |
| RangeIndicator.Apply | wedge/indicator/volatility/range.h:31-38 | the result is an element that no other element compares before |
| RangeIndicator.FullRange | wedge/indicator/volatility/range.h:13-38 | after at least period candles the value is that of exactly the last period of them |
| RangeIndicator.EarlyRange | wedge/indicator/volatility/range.h:11-21 | before that, with positive prices, the value is the highest high |

## Left out

- Rounding, infinities and not-a-number: `double` and `float` are exact reals; the sliding RSI with zero total loss is a separate case of its reading.
- `int` and `uint64_t` overflow of counters and ids.
- `BacktestEngine::run`, declared without a definition: a run is any sequence of commands and passes; the event `Strategy001` receives is an accurate snapshot of the engine, and in the histories of `StrategyRuns` one that leaves no live list out.
- Iterator invalidation: `update_new_orders` appends to the deque it iterates; the loop is modelled by position, with the evident intent that appended orders are visited.
- Ids outside the tables: `orders_` and `order_lists_` are indexed unchecked, so commands name existing ids.
- Wiring of arbitrary ids through the public `add_oto`, `add_oco` and `add_otoco`: the run theorems cover the wirings made by `execute`, and `add_oco` on two fresh orders.
- The virtual calls: the three order classes are one class with a kind, the two limit orders of the first backtest are values, and listener, broker and strategy interfaces are called directly.
- The context's own reference to its strategy: the loop and `run` take the strategy as an argument.
- Non-positive `grid_count` and closes that are not positive, by which the strategy divides; the solvency and funding statements also assume a non-negative spacing.
- `merge` in `wedge/backtest/backtest_context.cc`, which nothing calls.
- The market orders of the first backtest and `SimpleMovingAverageAlgo`: they would add easy members.
- `wedge/binance`, `wedge/trade`, `wedge/dataset`, logging, JSON and the input and output of both `main.cc`: candles and configuration arrive as parameters.
