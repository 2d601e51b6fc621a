# Trade simulator: transaction-cost engine and its surroundings, in Dafny

The trade simulator streams level-2 order books of one OKX spot pair over a
WebSocket and estimates the cost of a market order. For every book it
computes four numbers:

- the slippage of a market buy that walks the ask ladder;
- the exchange fee, blended between the maker and the taker rate;
- Almgren-Chriss market impact over the top ten levels of depth;
- the predicted maker share of the order.

The window then combines them into a net cost. This project models the
following pieces and proves properties of each.

- **Cost engine** (`trading_models.dfy`, module `TradingModels`): the four
  models as functions over an `Option<Book>`. Slippage and market impact
  are also written as methods that keep the source's loops and
  accumulators. Each method is proved equal to its function. Every
  exception fallback of the source is a constant that the model returns
  under the same conditions:
  - slippage returns 0.02 for a book too thin for the order and 0.01 for
    an unparsable level or a zero quantity or mid;
  - impact falls back to 0.5 % of the notional;
  - the maker share is 0.2 when the computation fails.
- **Order book** (`order_book.dfy`): a level is a price and a size. Each
  field is `None` when `float()` would raise on it, so every "parse
  failed" path of the source can be reached. A side is `None` when its key
  is missing.
- **Cost composition** (`output_panel.dfy`): `update_metrics` computes the
  maker share, slippage, fee and impact at the mid price, then the net
  cost. Two display conversions are also modelled: the maker/taker
  percentages and the latency in milliseconds.
- **Window state machine** (`main_window.dfy`): the class
  `TradeSimulatorWindow` holds four fields:
  - the feed client, which may be absent;
  - the stored book;
  - the status label;
  - the number of queued update ticks.

  Start, stop, the feed callback and the timer tick are its methods. A
  tick returns what it would display.
- **Feed client** (`websocket_client.dfy`): the class `FeedClient` has
  three parts:
  - the `running` flag;
  - the buffer of the last 100 per-message processing times and their
    average;
  - the receive loop, run over a sequence of frame outcomes: handled,
    malformed JSON, callback raised, or connection closed.
- **Performance monitor** (`performance_monitor.dfy`): three bounded
  series of capacity 1000 by default and their summary.
- **Shared pieces**:
  - `bounded_window.dfy` defines "keep the last n" (`LastN`) and the
    mean and maximum, used by both the feed and the monitor;
  - `real_arith.dfy` holds a few facts about products and quotients of
    reals;
  - `wrappers.dfy` has `Option` and `Result`.

Floats are modelled as reals:

- `np.exp` is a parameter `exp: real -> PositiveReal`.
- `np.sqrt(1/24)` is the literal double it returns. Only its positivity
  is used.
- Clock readings are parameters.

Where the code and its comments or documentation disagree, the model
follows the code:

- Slippage is 0.0, not the 0.01 error value, for a missing book or an
  empty side.
- For another venue or an unknown tier, the fee uses the VIP0 rates. The
  flat 0.1 % fee applies only when an exception is raised.
- The comment at `models/trading_models.py:164` says that more liquidity
  on the ask side makes a maker fill more likely. The formula does the
  opposite, and `MakerShareMonotone` proves it: a larger imbalance
  (more bid volume) never lowers the maker share.
- `get_metrics` divides by `time.time() - time.time()`. With a clock that
  never runs backwards, that divisor is zero or negative.
  `MessagesPerSecondNeverPositive` proves the consequence: the summary
  either fails with a division by zero or reports a rate of at most 0.

## Model

| member | source | states |
|---|---|---|
| `TradingModels.WalkAsks` | models/trading_models.py:35-48 | a walk that completes stops at a level at or after where it resumed and inside the ask side |
| `TradingModels.Slippage` | models/trading_models.py:14-63 | the result is never negative; it is exactly 0 for any order type other than "market" and for a missing book or an empty side |
| `TradingModels.CalculateSlippage` | models/trading_models.py:14-63 | the loop with its filled/cost accumulators and early break returns exactly `Slippage` of the same inputs |
| `TradingModels.WalkParsedLevels` | models/trading_models.py:35-48 | over levels that all parse, the walk never ends in a parse failure |
| `TradingModels.WalkExhaustedFrom` | models/trading_models.py:35-52 | a walk that runs out of levels has bought the whole side, and after every level the amount bought was still below the quantity |
| `TradingModels.WalkExhaustedIsShort` | models/trading_models.py:35-52 | running out of levels means the whole side parses and holds less than the quantity, so the 0.02 fallback is taken exactly when the order is still open |
| `TradingModels.WalkCompleteFrom` | models/trading_models.py:35-48 | a walk resumed at level i that completes at k has taken levels i..k-1 whole with the order open after each, and level k holds the rest |
| `TradingModels.WalkFillsQuantity` | models/trading_models.py:35-48 | a completed walk buys exactly the quantity, best level first: every level before k parses and is taken whole with the order still open, and only level k may be partial |
| `TradingModels.WalkNeverCompletes` | models/trading_models.py:35-52 | if no prefix from level i on reaches the quantity, the walk runs out of levels having bought the whole side |
| `TradingModels.PrefixSizeAtMostTotal` | models/trading_models.py:35-48 | with non-negative sizes no prefix of a side holds more than the whole side |
| `TradingModels.WalkShortBook` | models/trading_models.py:35-52 | parseable non-negative levels holding less in total than the order make the walk run out with the total bought |
| `TradingModels.WalkDeepBook` | models/trading_models.py:35-48 | parseable levels holding at least the order in total make the walk complete |
| `TradingModels.SlippageShortBook` | models/trading_models.py:50-52 | an ask side that cannot fill the order gives the 2 % fallback |
| `TradingModels.SlippageErrors` | models/trading_models.py:27-63 | an unparsable best ask or best bid, an unparsable level reached by the walk, or a completed walk with a zero quantity or a zero mid gives the 1 % fallback |
| `TradingModels.FillCost` | models/trading_models.py:39-47 | the cost of the levels taken whole plus the rest of the order at the completing level's price; with a non-negative price and the order not yet filled by the earlier levels, never below the earlier levels' notional |
| `TradingModels.FillCostAtLevelBoundary` | models/trading_models.py:35-48 | a fill ending where level k starts costs the notional of the levels before k; one that takes level k whole costs the notional through level k |
| `TradingModels.MidOf` | models/trading_models.py:27-29 | the mid price is as far above the best bid as it is below the best ask, and lies between them when the book is not crossed |
| `TradingModels.SlippageDeepBook` | models/trading_models.py:27-60 | for a deep enough book the slippage is max(0, (fill cost / quantity - mid) / mid), where the fill cost takes levels whole up to k and the remainder at level k's price |
| `TradingModels.NotionalAtLeast` | models/trading_models.py:42-47 | levels priced at or above a floor cost at least the floor times their total size |
| `TradingModels.CompletedFillAtLeast` | models/trading_models.py:35-55 | when no level is cheaper than a floor, a completed fill costs at least floor times the quantity |
| `TradingModels.SlippageUncrossedBook` | models/trading_models.py:27-60 | for an uncrossed book whose asks rise from the best ask, the zero floor never applies and the slippage is strictly positive |
| `TradingModels.SlippageOfSampleBook` | tests/test_trading_models.py:8-16 | on the test book, buying 1 gives exactly 0.5 / 99.5 and buying 5 (more than the 3 on offer) gives the 2 % fallback |
| `TradingModels.IsOkxSpellings` | models/trading_models.py:80 | `exchange.lower() == "okx"` holds exactly for three-letter spellings of o, k (or the Kelvin sign), x in any case |
| `TradingModels.RatesFor` | models/trading_models.py:71-86 | the rates are a table row, with maker rate between 0 and the taker rate; OKX with a tier in the table gets that tier's row, another venue or an unknown tier the VIP0 row |
| `TradingModels.BlendedRate` | models/trading_models.py:89-92 | an all-maker share pays the maker rate and an all-taker share the taker rate |
| `TradingModels.Fees` | models/trading_models.py:65-95 | a zero quantity or a zero price pays no fee; the fee by venue and tier is stated by `FeesByTier` |
| `TradingModels.FeesByTier` | models/trading_models.py:65-95 | OKX with a tier in the table pays the notional times that tier's blended rate; another venue or an unknown tier pays the notional times the VIP0 blended rate |
| `TradingModels.BlendedBetweenRates` | models/trading_models.py:88-92 | for a maker share in [0, 1] the blended rate lies between the maker and the taker rate |
| `TradingModels.FeesBetweenRates` | models/trading_models.py:88-95 | for a maker share in [0, 1] and a non-negative notional the fee lies between the notional at the maker rate and at the taker rate |
| `TradingModels.ScaledBlendBetween` | models/trading_models.py:89-93 | a fee that is a non-negative notional times the blended rate lies between that notional at the maker rate and at the taker rate |
| `TradingModels.FeesAllMakerOrTaker` | models/trading_models.py:88-95 | an all-maker order pays the notional at the maker rate, an all-taker order the notional at the taker rate |
| `TradingModels.FeesNonnegative` | models/trading_models.py:88-95 | a non-negative quantity at a non-negative price never earns a rebate |
| `TradingModels.UnknownVenueOrTierIsVip0` | models/trading_models.py:80-83 | another venue or an unknown tier is charged exactly what OKX VIP0 is charged |
| `TradingModels.FeesMonotone` | models/trading_models.py:88-95 | a larger quantity or price never lowers the fee |
| `TradingModels.FeesExample` | tests/test_trading_models.py:32-40 | one unit at 100 with a 0.6 maker share costs 0.088 at OKX VIP0 and at an unknown venue |
| `TradingModels.SqrtHorizonSquared` | models/trading_models.py:124-127 | the constant used for sqrt(1/24) is positive and squares to 1/24 within 1e-15 |
| `TradingModels.TopDepth` | models/trading_models.py:112-116 | the depth exists exactly when both sides are present and the sizes of their first ten levels parse |
| `TradingModels.EffectiveDepth` | models/trading_models.py:119-120 | a depth below the quantity is replaced by 100 times the quantity; after the substitution the depth is at least the quantity, and positive for a positive order |
| `TradingModels.MarketImpact` | models/trading_models.py:100-138 | non-negative for non-negative quantity, volatility and price; 0.5 % of the notional when the depth cannot be measured or the substituted depth is 0 |
| `TradingModels.ImpactFormula` | models/trading_models.py:123-135 | for a measurable book and a positive order the impact is 1.3 * sigma * sqrt(tau) * (quantity / depth) * price |
| `TradingModels.ImpactOfThinBook` | models/trading_models.py:119-135 | a book thinner than the order gives 1.3 * sigma * sqrt(tau) * price / 100 whatever the order size |
| `TradingModels.ImpactIncreasesWithVolatility` | models/trading_models.py:123-135 | a higher volatility gives a strictly higher impact |
| `TradingModels.ImpactIncreasesWithQuantity` | models/trading_models.py:123-135 | with the depth at least the larger order, a larger order has a strictly higher impact |
| `TradingModels.CalculateMarketImpact` | models/trading_models.py:100-138 | the two index loops accumulating depth return exactly `MarketImpact` of the same inputs |
| `TradingModels.Imbalance` | models/trading_models.py:158-161 | 0 when the volumes sum to 0, otherwise the value whose product with the total is bid minus ask volume; in [-1, 1] for non-negative volumes |
| `TradingModels.Clamp` | models/trading_models.py:168 | the result lies in [0, 0.8] and equals its argument when that is already in range |
| `TradingModels.MakerShareFormula` | models/trading_models.py:163-168 | the clamped logistic lies in (0, 0.8] whatever positive value exp returns |
| `TradingModels.MakerTaker` | models/trading_models.py:140-171 | the share always lies in [0, 0.8], and is 0 for a missing book or an empty side |
| `TradingModels.MakerTakerErrors` | models/trading_models.py:150-171 | an unparsable best ask or best bid, a best bid of 0 (the spread division fails) or an unparsable size among either side's top five gives the 0.2 fallback |
| `TradingModels.MakerTakerOfQuotedBook` | models/trading_models.py:149-168 | for a quoted book with parseable top-five sizes the share is the logistic of spread and imbalance capped at 0.8, and strictly positive |
| `TradingModels.MakerShareMonotone` | models/trading_models.py:163-165 | with an increasing exp, a wider spread never raises the share and a larger imbalance never lowers it |
| `OrderBook.BestPrice` | models/trading_models.py:27-28 | for a non-empty side the best price is its first level's price (absent when that does not parse); an empty or missing side has none |
| `OrderBook.SumSizes` | models/trading_models.py:155-156 | the sum of sizes exists exactly when every size parses |
| `OrderBook.Notional` | models/trading_models.py:42-47 | the sum of size times price exists exactly when every level parses |
| `BoundedWindow.LastN` | network/websocket_client.py:44-46 | the window keeps the last min(n, length) values, in arrival order |
| `BoundedWindow.LastNAbsorb` | network/websocket_client.py:44-46 | trimming after every append gives the same window as trimming once after all of them |
| `BoundedWindow.Mean` | network/websocket_client.py:89-94 | 0 for an empty window, otherwise the value whose product with the count is the sum |
| `BoundedWindow.Max` | utils/performance_monitor.py:29 | 0 for an empty window, otherwise one of the samples and at least every sample |
| `BoundedWindow.MeanAtMost` | utils/performance_monitor.py:28-29 | a bound on every sample bounds the mean |
| `BoundedWindow.MeanAtMostMax` | utils/performance_monitor.py:28-29 | the mean of a non-empty window never exceeds its maximum |
| `OutputPanel.NetCost` | ui/output_panel.py:166 | never below the notional when slippage, fee and impact are non-negative; notional plus fee plus impact when slippage is 0 |
| `OutputPanel.ComputeMetrics` | ui/output_panel.py:155-166 | the maker share lies in [0, 0.8], the slippage is never negative, and the net cost is `NetCost` of the mid-price notional and the three other components |
| `OutputPanel.MetricsDataflow` | ui/output_panel.py:158-166 | the fee uses the mid price and the maker share predicted for the same book, the impact the mid price and the input volatility, the slippage the input order type |
| `OutputPanel.NetCostAtLeastNotional` | ui/output_panel.py:155-166 | for non-negative quantity, mid and volatility the fee and impact are non-negative and the net cost is at least the notional |
| `OutputPanel.NetCostNonMarket` | ui/output_panel.py:159-166 | a non-market order has no slippage: the net cost is the notional plus fee plus impact |
| `OutputPanel.MetricsWithoutBook` | ui/output_panel.py:155-166 | without a book: no maker share, no slippage, the fee at the taker rate and the 0.5 % impact |
| `OutputPanel.MakerTakerPercentages` | ui/output_panel.py:173 | the two percentages sum to 100 and the first is the maker share times 100; a share in [0, 0.8] shows as 0-80 % and 20-100 % |
| `OutputPanel.LatencyMillis` | ui/output_panel.py:174 | the milliseconds divided by 1000 are the seconds, and the sign is kept |
| `MainWindow.MidPrice` | ui/main_window.py:162 | the mid price exists exactly when both sides are quoted, and is the mean of the two best prices |
| `MainWindow.TickView` | ui/main_window.py:155-173 | a tick shows something exactly when a mid price exists: that price, the metrics at it and the latency in milliseconds |
| `MainWindow.TickSlippageAgainstShownPrice` | ui/main_window.py:162-173 | for a deep enough book, the slippage shown is the fill price's excess over the displayed mid, relative to it |
| `MainWindow.TradeSimulatorWindow.constructor` | ui/main_window.py:26-34 | no client, no book, status "Disconnected" (the output panel's initial status, ui/output_panel.py:28), nothing queued |
| `MainWindow.TradeSimulatorWindow.UpdateLoop` | ui/main_window.py:150-182 | without a running client nothing is shown or queued; a running tick shows the view of the stored book and queues the next tick; the window invariant is kept |
| `MainWindow.TradeSimulatorWindow.TimerFires` | ui/main_window.py:178-182 | a queued tick leaves the queue and re-queues itself only while the client runs, so the chain ends after a stop; the window invariant is kept |
| `MainWindow.TradeSimulatorWindow.StartSimulation` | ui/main_window.py:96-117 | status "Connecting...", a fresh running client for the prefix plus the asset with no samples, the book kept, one tick shown and queued |
| `MainWindow.TradeSimulatorWindow.StopSimulation` | ui/main_window.py:123-134 | the old client is stopped, the client cleared and the status "Disconnected"; the book and the queue are kept |
| `MainWindow.TradeSimulatorWindow.ProcessOrderbookData` | ui/main_window.py:140-146 | the message replaces the stored book wholesale and the status becomes "Connected"; the window invariant is kept |
| `MainWindow.TradeSimulatorWindow.FeedReceives` | ui/main_window.py:140-146 | after a receive loop the stored book is the last message delivered and the status "Connected", or unchanged when nothing was delivered; a running client's buffer becomes the last 100 of its old samples followed by those of the frames, a stopped one keeps it; a reconnect is requested iff the client runs and the connection closed |
| `WebSocketClient.Samples` | network/websocket_client.py:33-55 | the frames add at most one sample each |
| `WebSocketClient.Delivered` | network/websocket_client.py:33-55 | the frames deliver at most one message each |
| `WebSocketClient.SamplesAtMostDelivered` | network/websocket_client.py:38-55 | a sample is taken only for a delivered message, and for each one when no callback raised |
| `WebSocketClient.CloseEndsLoop` | network/websocket_client.py:49-51 | frames after the first close add no sample and deliver nothing |
| `WebSocketClient.FeedClient.constructor` | network/websocket_client.py:15-23 | a stopped client for the given URI with no samples |
| `WebSocketClient.FeedClient.Start` | network/websocket_client.py:65-70 | the client runs afterwards, whether or not it ran before; the samples are kept |
| `WebSocketClient.FeedClient.Stop` | network/websocket_client.py:81-83 | the client no longer runs; the samples are kept |
| `WebSocketClient.FeedClient.AverageProcessingTime` | network/websocket_client.py:89-94 | 0 with no samples, otherwise the value whose product with the count is their sum |
| `WebSocketClient.FeedClient.RecordSample` | network/websocket_client.py:44-46 | the new sample goes last and the buffer keeps the last 100, so it never holds more than 100 |
| `WebSocketClient.FeedClient.HandleFrame` | network/websocket_client.py:38-55 | a decoded message is delivered; only a callback that returned records a sample; malformed JSON changes nothing |
| `WebSocketClient.FeedClient.ReceiveLoop` | network/websocket_client.py:33-63 | while running, the buffer ends as the last 100 of the old samples followed by those of every frame up to the first close, the messages are delivered in order, and a reconnect is requested iff the connection closed; a stopped client reads nothing |
| `PerformanceMonitor.Summarize` | utils/performance_monitor.py:25-34 | fails exactly when the two clock readings are equal; otherwise the averages and the maximum are those of the series, and the rate times the elapsed difference is the count |
| `PerformanceMonitor.MessagesPerSecondNeverPositive` | utils/performance_monitor.py:32 | with a clock that never runs backwards the rate is never positive |
| `PerformanceMonitor.MaxAtLeastMean` | utils/performance_monitor.py:28-29 | the reported maximum processing time is never below the reported average |
| `PerformanceMonitor.Monitor.constructor` | utils/performance_monitor.py:7-10 | three empty series of the given capacity, 1000 by default |
| `PerformanceMonitor.Monitor.RecordProcessingTime` | utils/performance_monitor.py:13-15 | the elapsed time goes last in its series, which keeps the last windowSize values; the other two series are unchanged |
| `PerformanceMonitor.Monitor.RecordUiUpdate` | utils/performance_monitor.py:17-19 | the duration goes last in its series, which keeps the last windowSize values; the other two series are unchanged |
| `PerformanceMonitor.Monitor.RecordNetworkLatency` | utils/performance_monitor.py:21-23 | the latency goes last in its series, which keeps the last windowSize values; the other two series are unchanged |
| `PerformanceMonitor.Monitor.Append` | utils/performance_monitor.py:8-10 | appending to a full deque drops the oldest value, appending to a shorter one only adds; the length never exceeds the capacity |
| `PerformanceMonitor.Monitor.GetMetrics` | utils/performance_monitor.py:25-34 | the summary of the three current series for the two clock readings |

## Left out

- Network I/O, the asyncio event loop, the connection thread and
  `join(timeout=1)`. The frames one connection yields are a parameter of
  `ReceiveLoop`.
- The reconnect after five seconds. It is only modelled as the request
  flag `reconnect`, which is set iff the client runs and the connection
  closed.
- `running` is read once per receive loop. A `stop` from another thread
  in the middle of a loop is concurrency and is not modelled.
- Locks of the performance monitor: each record and read is atomic.
- Wall-clock time. Every `time.time()` reading is a parameter, and a
  frame carries its own processing time. `last_tick_time` is never read
  and is not modelled.
- Floating-point rounding, NaN and infinity. Prices, sizes and costs are
  reals, and `float()` either parses or fails.
- Decoded JSON that is not an object. A non-empty object whose sides are
  not lists of [price, size] pairs (a short pair or a non-list side) is
  not modelled. A level's fields either parse or do not.
- `exchange.lower()` is modelled only for ASCII letters and the Kelvin
  sign, the only characters that affect the comparison with "okx".
- The 0.1 % fee fallback (models/trading_models.py:96-98) cannot be
  reached: with a string venue and real numbers nothing in the fee
  computation raises.
- `MakerShareFormula`: strictly positive only because `exp` is a total
  function into the positive reals. With float overflow, `np.exp` returns
  infinity and the source's share becomes 0.0.
- `WebSocketClient.FeedClient.HandleFrame`: the callback is the caller's.
  A frame records whether it returned or raised. `FeedReceives` applies
  the window's callback to the delivered messages after the loop, not
  interleaved with it. Nothing in the window's callback depends on the
  feed's state.
- `MainWindow.TradeSimulatorWindow.StartSimulation`: the failure branch
  (lines 118-121, which falls back to stopping) is not modelled, because
  nothing in the modelled start can raise.
- The tick in the model does not raise. In the source, an exception in a
  tick is logged and the tick still reschedules. The visualization update
  (ui/visualization.py) is not part of this model.
- All tkinter widgets, button states, styles, string formatting and
  logging. The input panel is not part of this model: its parameters
  arrive as `TradeParams`, with volatility already a fraction.
- app.py and utils/logger.py are not part of this model.
