# FINM Python trading code, modelled in Dafny

This project models the core of a course repository of Python trading code:

- **The bar-by-bar backtester** (`trading_backtester_project/backtester`):
  - a price-time-priority limit order book and its crossing loop;
  - a simulated matching engine that fills fully, partly or not at all;
  - an order manager that applies risk limits and books fills into cash and position;
  - three strategies: moving-average crossover, RSI mean reversion and momentum breakout;
  - the replay loop that ties these together and records an equity curve.
- **The FIX order gateway** (`assignment_9`):
  - a `tag=value` message parser;
  - the order lifecycle NEW → ACKED/REJECTED → FILLED/CANCELED;
  - a per-symbol position risk engine;
  - `handle_message`, which runs one message through all three.
- **The design-patterns package** (`assignment_6`):
  - commands with undo/redo and their invoker;
  - the observer publisher;
  - the engine that dispatches strategy signals;
  - order summaries;
  - dotted-key configuration lookup;
  - the instrument factory;
  - instruments, decorators and the composite portfolio;
  - the portfolio builder;
  - the mean-reversion and breakout tick strategies.
- **The streaming moving averages** (`assignment_3/strategies.py`): naive, windowed and cumulative.
- **`_chunks`** of the parallel metrics helpers (`assignment_7/parallel.py`).

Code that updates objects in place is modelled as Dafny classes: the order book, the order manager, the backtester, the invoker, the publisher, the engine, the builder and the moving-average strategies. Each of their methods is proved against a pure specification function.

The specification functions and their lemmas carry the properties:

- `Books.Cross` specifies `match`.
- `Backtesting.Replay` specifies a whole backtest run.
- `FixParsing.ParseMessage` specifies `parse`.
- `FixPipeline.Handle` specifies `handle_message`.
- `Reporting.Summary` specifies `summarize_orders`.
- `MovingAverages.RunWindow` specifies the windowed average.

The wall clock (`time.time()`) and the matching engine's random draw (`random.choice`) are parameters of the operations that read them. File, console and plot output is not modelled. Python floats are Dafny reals, and NaN is `None` wherever the code produces it.

`wrappers.dfy` holds `Option` and `Result`. `pytext.dfy` models the Python string and list built-ins the code relies on: `split`, `replace`, `upper`/`lower`, `int`, string comparison and `list.remove`.

## Model

| member | source | states |
|---|---|---|
| Books.NewOrder | trading_backtester_project/backtester/order_book.py:16-22 | an order carries the given fields and the priority key (-price, timestamp) for a BUY, (price, timestamp) for any other side |
| Books.PrecedesTotal | trading_backtester_project/backtester/order_book.py:7-14 | the dataclass ordering compares any two orders |
| Books.PrecedesTransitive | trading_backtester_project/backtester/order_book.py:7-14 | the dataclass ordering is transitive |
| Books.PrecedesAntisymmetric | trading_backtester_project/backtester/order_book.py:7-14 | two orders that compare both ways have the same id, so on a book with unique ids the heap minimum is unique |
| Books.PriceTimePriority | trading_backtester_project/backtester/order_book.py:16-22 | on either side a better price comes strictly first, and at equal prices the earlier timestamp does |
| Books.Insert | trading_backtester_project/backtester/order_book.py:43-46 | `heappush` on a side lengthens it by exactly one order |
| Books.InsertPermutation | trading_backtester_project/backtester/order_book.py:43-46 | `heappush` adds exactly the new order: the side's multiset grows by that order |
| Books.InsertElements | trading_backtester_project/backtester/order_book.py:43-46 | after `heappush` the side holds the old orders and the new one, and nothing else |
| Books.InsertSorted | trading_backtester_project/backtester/order_book.py:43-46 | `heappush` keeps the side in priority order |
| Books.IdsInsert | trading_backtester_project/backtester/order_book.py:35-47 | adding an order adds exactly its id to the side's ids |
| Books.InsertKeeps | trading_backtester_project/backtester/order_book.py:35-47 | `add_order` keeps the book invariant: sorted sides, BUYs only on the bid side, positive quantities, distinct ids below the counter |
| Books.CrossLeavesBookUncrossed | trading_backtester_project/backtester/order_book.py:60-79 | after `match` one side is empty or the best bid is below the best ask |
| Books.CrossIsBounded | trading_backtester_project/backtester/order_book.py:60-79 | `match` makes at most as many fills as there were resting orders, and neither side grows |
| Books.CrossTradesAreFair | trading_backtester_project/backtester/order_book.py:65-72 | every fill trades a positive quantity, at most each head's quantity, at the midpoint of a crossed bid and ask |
| Books.CrossConservesQuantity | trading_backtester_project/backtester/order_book.py:66-77 | the traded quantity equals exactly what left the bid side and exactly what left the ask side |
| Books.CrossUncrossedIsIdentity | trading_backtester_project/backtester/order_book.py:60-79 | an uncrossed book is left as it was, with no trades |
| Books.AfterFillSorted | trading_backtester_project/backtester/order_book.py:69-77 | decrementing or popping a side's head keeps the side sorted |
| Books.FillKeepsValid | trading_backtester_project/backtester/order_book.py:69-77 | one fill of `match` keeps the book invariant |
| Books.OrderBook.constructor | trading_backtester_project/backtester/order_book.py:30-33 | a new book is empty and its id counter starts at 0 |
| Books.OrderBook.AddOrder | trading_backtester_project/backtester/order_book.py:35-47 | the side is upper-cased; the order takes the next id and goes into the bid heap for BUY and the ask heap otherwise; the invariant is kept |
| Books.OrderBook.BestBid | trading_backtester_project/backtester/order_book.py:49-50 | `None` exactly for an empty bid side; otherwise a bid with the highest price, and the earliest among equal prices |
| Books.OrderBook.BestAsk | trading_backtester_project/backtester/order_book.py:52-53 | `None` exactly for an empty ask side; otherwise an ask with the lowest price, and the earliest among equal prices |
| Books.OrderBook.Match | trading_backtester_project/backtester/order_book.py:55-81 | the loop's trades and remaining sides are those of `Cross`; the book ends uncrossed and valid; the id counter is unchanged |
| Matching.SubmitOrder | trading_backtester_project/backtester/matching_engine.py:22-45 | CANCEL fills 0 at 0.0; FULL fills the whole quantity at the mid price; PARTIAL fills `max(1, qty // 2)` at the mid price: one unit for a quantity below 2, otherwise the largest f with 2f <= qty |
| Matching.FillBounds | trading_backtester_project/backtester/matching_engine.py:22-45 | for a positive quantity the fill is between 0 and the quantity, and positive exactly when the order was not cancelled |
| OrderManagement.Row | trading_backtester_project/backtester/order_manager.py:48-61 | a log row carries the order's id, side, price and quantity |
| OrderManagement.Pruned | trading_backtester_project/backtester/order_manager.py:63-67 | keeps exactly the approval times less than 60 seconds old |
| OrderManagement.PrunedIdempotent | trading_backtester_project/backtester/order_manager.py:63-67 | pruning twice at the same instant removes nothing more |
| OrderManagement.PrunedConcat | trading_backtester_project/backtester/order_manager.py:63-67 | pruning distributes over concatenation, so order is kept |
| OrderManagement.RiskAllowsExactly | trading_backtester_project/backtester/order_manager.py:69-88 | the checks accept exactly when the window has room, the notional is within the cap, the new position is within the cap and a BUY is covered by cash |
| OrderManagement.Filled | trading_backtester_project/backtester/order_manager.py:98-105 | a BUY adds the fill quantity to the position; any other side subtracts it |
| OrderManagement.FillPreservesValue | trading_backtester_project/backtester/order_manager.py:98-105 | marked at the fill price, cash plus position value is unchanged by a fill |
| OrderManagement.BuyThenSellRestores | trading_backtester_project/backtester/order_manager.py:98-105 | a buy then a sell of the same quantity at the same price restores cash and position |
| OrderManagement.OrderManager.constructor | trading_backtester_project/backtester/order_manager.py:20-30 | the given cash, a flat position, an empty window and an empty log |
| OrderManagement.OrderManager.UpdateOrdersPerMinute | trading_backtester_project/backtester/order_manager.py:63-67 | the window becomes its pruned self; nothing else changes |
| OrderManagement.OrderManager.CheckRiskLimits | trading_backtester_project/backtester/order_manager.py:69-88 | prunes the window, then answers `RiskAllows` on the pruned window; cash, position and log are unchanged |
| OrderManagement.OrderManager.ApproveOrder | trading_backtester_project/backtester/order_manager.py:90-96 | logs one SENT/approved or REJECTED/risk_limit row; an approval is appended to the window, which then stays within `max_orders_per_min` and holds only times less than 60 s old |
| OrderManagement.OrderManager.ApplyFill | trading_backtester_project/backtester/order_manager.py:98-110 | cash and position move as `Filled` says, and one FILLED row with the fill price and quantity is logged |
| Strategies.MaSignal | trading_backtester_project/backtester/strategy.py:39-41 | the signal is 1, -1 or 0 exactly when the fast average is above, below or equal to the slow one |
| Strategies.MaSignalAntisymmetric | trading_backtester_project/backtester/strategy.py:39-41 | swapping the averages negates the signal |
| Strategies.Edge | trading_backtester_project/backtester/strategy.py:53-57 | a positive change is a BUY of the units, a negative one a SELL, and zero is no order |
| Strategies.MAStep | trading_backtester_project/backtester/strategy.py:44-57 | the first call only records the signal; later calls trade the change from the remembered signal |
| Strategies.MARun | trading_backtester_project/backtester/strategy.py:44-57 | over a stream of signals, one decision per bar |
| Strategies.ConstantSignalNeverTrades | trading_backtester_project/backtester/strategy.py:44-57 | a signal that never changes never trades |
| Strategies.ReversalIsOneOrder | trading_backtester_project/backtester/strategy.py:50-54 | a jump from -1 to 1 is one BUY of the units |
| Strategies.MACrossoverStrategy.constructor | trading_backtester_project/backtester/strategy.py:27-29 | the config is stored and there is no previous signal |
| Strategies.MACrossoverStrategy.GenerateOrder | trading_backtester_project/backtester/strategy.py:44-57 | decision and new memory are `MAStep` of the row's signal, 0 when the column is missing |
| Strategies.RsiDecision | trading_backtester_project/backtester/strategy.py:94-100 | BUY exactly below `oversold`; SELL exactly above `overbought` otherwise; nothing inside the band; a missing RSI reads as 50 |
| Strategies.Triggers | trading_backtester_project/backtester/strategy.py:139-146 | no prior high means no long trigger, and no prior low means no short trigger |
| Strategies.DesiredPosition | trading_backtester_project/backtester/strategy.py:148-152 | a long trigger gives 1; otherwise a short trigger gives -1; otherwise the position is held |
| Strategies.DesiredPositionStaysInRange | trading_backtester_project/backtester/strategy.py:148-155 | the position stays in {-1, 0, 1} and never returns to flat |
| Strategies.MomentumStrategy.constructor | trading_backtester_project/backtester/strategy.py:117-119 | the strategy starts flat |
| Strategies.MomentumStrategy.GenerateOrder | trading_backtester_project/backtester/strategy.py:138-161 | moves to `DesiredPosition` of the triggers and trades the difference |
| Strategies.PriorHigh | trading_backtester_project/backtester/strategy.py:124-129 | the lookback high is the largest of the previous `lookback` highs, excluding the current bar; there is none at the first bar |
| Strategies.PriorLow | trading_backtester_project/backtester/strategy.py:130-135 | the lookback low is the smallest of the previous `lookback` lows, excluding the current bar; there is none at the first bar |
| Strategies.PriorHighExcludesCurrent | trading_backtester_project/backtester/strategy.py:123-129 | the current and later bars never affect their own lookback high |
| Backtesting.DecideShape | trading_backtester_project/backtester/strategy.py:13-14 | every strategy orders nothing, a BUY or a SELL |
| Backtesting.GenerateOrder | trading_backtester_project/backtester/backtest.py:43 | dispatches to the strategy's `generate_order`, giving `Decide`'s decision and memory |
| Backtesting.StepAccounting | trading_backtester_project/backtester/backtest.py:33-62 | per bar, the book gains an order and the id counter advances exactly when an order is decided; a report is appended exactly when the order was SENT |
| Backtesting.StepKeepsEquity | trading_backtester_project/backtester/backtest.py:39-41 | per bar, one equity point at the close and one timestamp are appended; cash and position change only through a positive fill |
| Backtesting.StepEquityAtClose | trading_backtester_project/backtester/backtest.py:57-61 | a fill at the close leaves the equity at the close unchanged |
| Backtesting.SubmitAccounting | trading_backtester_project/backtester/backtest.py:47-55 | submitting rests the order on one side under the next id and logs exactly one SENT or REJECTED row |
| Backtesting.ExecuteAccounting | trading_backtester_project/backtester/backtest.py:57-62 | executing appends the report and at most one FILLED row; at the fill price the equity is unchanged |
| Backtesting.ReplayWithinLimits | trading_backtester_project/backtester/backtest.py:33-62 | with non-negative prices, a run that starts within limits keeps the position within `max_position` and cash non-negative |
| Backtesting.StepWithinLimits | trading_backtester_project/backtester/backtest.py:33-62 | one bar keeps position and cash within limits |
| Backtesting.FillWithinLimits | trading_backtester_project/backtester/order_manager.py:69-105 | a fill of at most the approved quantity at the approved price stays within the limits the approval checked |
| Backtesting.ReplayEquityPerBar | trading_backtester_project/backtester/backtest.py:39-41 | after n bars the equity curve and the timestamps grew by exactly n, and the trades by at most n |
| Backtesting.ReplayLengths | trading_backtester_project/backtester/backtest.py:39-62 | each bar adds one equity point and one timestamp, and at most one report |
| Backtesting.ComputeMetrics | trading_backtester_project/backtester/backtest.py:64-90 | no metrics for fewer than two equity points; otherwise the final equity is the last point |
| Backtesting.TotalPnlTelescopes | trading_backtester_project/backtester/backtest.py:83 | the total profit is the sum of the bar-to-bar changes |
| Backtesting.Backtester.constructor | trading_backtester_project/backtester/backtest.py:16-31 | a fresh empty book, a manager with the starting cash and default risk limits, and empty output lists |
| Backtesting.Backtester.Run | trading_backtester_project/backtester/backtest.py:33-62 | every component ends in the state `Replay` gives for all bars |
| Backtesting.Backtester.RunBar | trading_backtester_project/backtester/backtest.py:34-62 | one turn of the loop is one `Step` |
| Backtesting.Backtester.RecordBar | trading_backtester_project/backtester/backtest.py:37-43 | records the equity at the close and the timestamp, then asks the strategy |
| Backtesting.Backtester.SubmitOrder | trading_backtester_project/backtester/backtest.py:47-55 | `add_order` followed by `approve_order` is `Submit` |
| Backtesting.Backtester.ExecuteOrder | trading_backtester_project/backtester/backtest.py:57-62 | `submit_order`, a positive `apply_fill` and the appended report are `Execute` |
| FixParsing.TagValue | assignment_9/fix_parser.py:29 | the field is the tag, `=` and the value, and the tag has no `=` |
| FixParsing.FieldsOf | assignment_9/fix_parser.py:20-22 | there is at least one field, and no field holds `\|` or SOH |
| FixParsing.FirstMissing | assignment_9/fix_parser.py:33-35 | `None` exactly when every required tag is present and non-empty; otherwise a required tag that is missing or empty |
| FixParsing.CollectFailureStays | assignment_9/fix_parser.py:24-30 | once a field fails, later fields do not change the result |
| FixParsing.CollectFailsExactly | assignment_9/fix_parser.py:24-30 | collecting fails exactly when some non-empty field lacks `=`, and it names the first such field |
| FixParsing.CollectSkipsEmpty | assignment_9/fix_parser.py:25-26 | empty fields are skipped |
| FixParsing.FieldsTrailing | assignment_9/fix_parser.py:20-22 | a trailing delimiter adds one empty field |
| FixParsing.ParseTrailingDelimiter | assignment_9/fix_parser.py:15-37 | a message with a trailing `\|` parses like the message without it |
| FixParsing.ParseSohAsPipe | assignment_9/fix_parser.py:19-20 | SOH and `\|` delimit alike |
| FixParsing.Message | assignment_9/fix_parser.py:5-7 | writes each pair as a `tag=value` field |
| FixParsing.ToMap | assignment_9/fix_parser.py:23-30 | the dict holds exactly the tags that occur |
| FixParsing.ToMapLastWins | assignment_9/fix_parser.py:30 | a repeated tag keeps the value of its last occurrence |
| FixParsing.CollectMessage | assignment_9/fix_parser.py:24-30 | collecting written pairs gives their dict |
| FixParsing.ParseRendered | assignment_9/fix_parser.py:15-37 | round trip: a message written from pairs parses to their dict, or fails on the first missing required tag |
| FixParsing.FixParser.constructor | assignment_9/fix_parser.py:10-13 | no list, or an empty one, means tags 35, 55, 54 and 38 |
| FixParsing.FixParser.Parse | assignment_9/fix_parser.py:15-37 | the result is `ParseMessage` on the parser's required tags |
| FixOrders.Next | assignment_9/order.py:25-44 | a request either takes effect or leaves the state as it was |
| FixOrders.NextExactly | assignment_9/order.py:30-38 | a request takes effect exactly for NEW→ACKED, NEW→REJECTED, ACKED→FILLED and ACKED→CANCELED |
| FixOrders.TerminalStates | assignment_9/order.py:30-34 | FILLED, CANCELED and REJECTED are exactly the states without an entry in the table |
| FixOrders.NextAllMonotone | assignment_9/order.py:25-44 | no sequence of requests moves an order back a stage, and a terminal order never moves |
| FixOrders.DoneNeedsAck | assignment_9/order.py:30-34 | a new order ends FILLED or CANCELED only if ACKED was requested |
| FixOrders.Order.constructor | assignment_9/order.py:14-23 | a new order keeps its symbol, quantity and side, and starts NEW |
| FixOrders.Order.Transition | assignment_9/order.py:25-44 | the state becomes `Next` of the old state and the request |
| FixRisk.SideSign | assignment_9/risk_engine.py:16-23 | '1' gives 1, '2' gives -1, and anything else is an unknown-side error |
| FixRisk.Moved | assignment_9/risk_engine.py:52-59 | the symbol gains an entry, and no other key appears |
| FixRisk.MovedOnly | assignment_9/risk_engine.py:52-59 | moving one symbol changes that symbol by the delta and no other |
| FixRisk.MovedTwice | assignment_9/risk_engine.py:52-59 | two moves of one symbol add up |
| FixRisk.BuyThenSellRestores | assignment_9/risk_engine.py:52-59 | a buy then a sell of the same quantity restores every symbol's position |
| FixRisk.CheckOrder | assignment_9/risk_engine.py:25-50 | a passing check returns true |
| FixRisk.CheckExactly | assignment_9/risk_engine.py:25-50 | passes exactly when 0 < qty <= max_order_size, the side is known and the projected position is within max_position; the quantity error comes first, then the size error |
| FixRisk.CheckedMoveWithinLimits | assignment_9/risk_engine.py:25-59 | applying a checked order keeps every symbol within the position limit |
| FixRisk.RiskEngine.constructor | assignment_9/risk_engine.py:10-14 | the two limits and no positions |
| FixRisk.RiskEngine.UpdatePosition | assignment_9/risk_engine.py:52-59 | an unknown side raises with positions unchanged; otherwise the symbol moves by the signed quantity, with no limit check |
| FixPipeline.Logger.constructor | assignment_9/logger.py:20-26 | no events |
| FixPipeline.Logger.Log | assignment_9/logger.py:28-35 | appends one event of the given type and data |
| FixPipeline.Intake | assignment_9/main.py:12-15 | succeeds exactly when tags 55, 38 and 54 are present and 38 is an integer, giving symbol, quantity and side |
| FixPipeline.ProcessOutcome | assignment_9/main.py:17-44 | exactly two events, "OrderCreated" with the message first; FILLED with the position moved exactly when the risk check passes; otherwise REJECTED with the check's error and no position change |
| FixPipeline.HandleFailsExactly | assignment_9/main.py:8-44 | handling fails exactly when parsing or reading the order fails; the risk check never makes it fail |
| FixPipeline.HandleWithinLimits | assignment_9/main.py:8-44 | handling a message never takes a symbol past the position limit |
| FixPipeline.HandleMessage | assignment_9/main.py:8-44 | a failure raises with nothing logged or moved; otherwise a fresh order in `Handle`'s final state, with the positions and events it gives |
| FixPipeline.ProcessOrder | assignment_9/main.py:17-44 | builds, logs and fills or rejects the order as `Process` says |
| Commands.OrderList.constructor | assignment_6/engine.py:8 | the order list starts empty |
| Commands.ExecuteOrderCommand.constructor | assignment_6/patterns/command.py:7 | keeps its list and its order |
| Commands.ExecuteOrderCommand.Execute | assignment_6/patterns/command.py:8 | appends the order and succeeds |
| Commands.ExecuteOrderCommand.Undo | assignment_6/patterns/command.py:9-11 | removes the first equal order; reports whether there was one |
| Commands.DoThenUndoRestores | assignment_6/patterns/command.py:8-11 | undoing right after doing restores the list's contents, and the list itself when the order was new |
| Commands.UndoThenRedoRestores | assignment_6/patterns/command.py:8-11 | redoing an undone command restores the list's contents |
| Commands.CommandInvoker.constructor | assignment_6/patterns/command.py:13 | both stacks start empty |
| Commands.CommandInvoker.Do | assignment_6/patterns/command.py:14-15 | executes, pushes the command and clears the undone stack |
| Commands.CommandInvoker.Undo | assignment_6/patterns/command.py:16-17 | with a done command, pops it, undoes it on its list only and pushes it as undone; otherwise nothing changes |
| Commands.CommandInvoker.Redo | assignment_6/patterns/command.py:18-19 | with an undone command, pops it, executes it again on its list only and pushes it as done; otherwise nothing changes |
| Observers.SignalLog.constructor | assignment_6/patterns/observer.py:12 | the list starts empty |
| Observers.LoggerObserver.constructor | assignment_6/patterns/observer.py:12 | keeps the list it was given |
| Observers.LoggerObserver.Update | assignment_6/patterns/observer.py:13 | appends the signal |
| Observers.AlertObserver.constructor | assignment_6/patterns/observer.py:15 | the threshold and a fresh empty alert list |
| Observers.AlertObserver.Update | assignment_6/patterns/observer.py:16-17 | keeps the signal exactly when its absolute quantity, 0 when missing, reaches the threshold |
| Observers.Update | assignment_6/patterns/observer.py:4 | `update` of either observer class |
| Observers.DeliveredElsewhere | assignment_6/patterns/observer.py:9-10 | a list no observer writes to receives nothing |
| Observers.DeliveredOnce | assignment_6/patterns/observer.py:9-10 | with one list per observer, each list receives the signal once, if its observer records it |
| Observers.AttachedTwice | assignment_6/patterns/observer.py:7-10 | a logger attached twice receives each signal twice |
| Observers.SignalPublisher.constructor | assignment_6/patterns/observer.py:6 | no observers |
| Observers.SignalPublisher.Attach | assignment_6/patterns/observer.py:7 | registers at the end |
| Observers.SignalPublisher.Detach | assignment_6/patterns/observer.py:8 | drops the first registration; reports whether there was one |
| Observers.SignalPublisher.Notify | assignment_6/patterns/observer.py:9-10 | each list receives exactly what its observers, in order, append |
| PatternEngine.SignalSource.Decide | assignment_6/patterns/strategy.py:17-37 | a decision holds at most one signal, of 100 units |
| PatternEngine.Generate | assignment_6/engine.py:10 | the strategy records the price and returns its decision |
| PatternEngine.OrdersOf | assignment_6/engine.py:12 | one order per signal, in order, with its symbol, action and quantity |
| PatternEngine.CommandOrders | assignment_6/engine.py:12 | the orders of a command list, in order |
| PatternEngine.OrdersGrow | assignment_6/engine.py:10-12 | one more signal adds its order at the end |
| PatternEngine.DeliveriesGrow | assignment_6/engine.py:10-11 | one more signal adds its deliveries after the earlier ones |
| PatternEngine.CommandOrdersGrow | assignment_6/engine.py:12 | one more command adds its order at the end |
| PatternEngine.Engine.constructor | assignment_6/engine.py:7-8 | a fresh invoker with empty stacks and a fresh empty order list |
| PatternEngine.Engine.OnTick | assignment_6/engine.py:9-12 | the strategy records the tick; if it raises, nothing else changes; otherwise every signal is delivered to every list in order and booked as one command, with the orders appended in signal order |
| PatternEngine.Engine.DispatchAll | assignment_6/engine.py:10-12 | the loop over the signals, as `Dispatched` describes |
| PatternEngine.Engine.Deliver | assignment_6/engine.py:11 | one `notify` extends every list by its deliveries |
| PatternEngine.Engine.Book | assignment_6/engine.py:12 | one command books one order |
| PatternEngine.Engine.UndoLast | assignment_6/engine.py:13 | the invoker's undo on the engine's list |
| PatternEngine.Engine.RedoLast | assignment_6/engine.py:14 | the invoker's redo on the engine's list |
| Reporting.SummaryKeys | assignment_6/reporting.py:3-6 | the summary has an entry for exactly the (symbol, action) pairs in the book |
| Reporting.SummaryIsQtyOf | assignment_6/reporting.py:3-6 | each entry is the sum of the quantities of the orders with that pair |
| Reporting.SummaryTotal | assignment_6/reporting.py:3-6 | the entries add up to the book's total quantity |
| Reporting.SummarizeOrders | assignment_6/reporting.py:3-6 | the loop's map has the book's pairs as keys, per-pair sums as values and the book's total quantity as its sum |
| Configuration.AtConcat | assignment_6/patterns/singleton.py:12-16 | following a path in two legs is following it at once |
| Configuration.LookupPlain | assignment_6/patterns/singleton.py:11-16 | a key without a dot gives the top-level value or the default |
| Configuration.LookupDotted | assignment_6/patterns/singleton.py:11-16 | `get("a.rest")` is `get("rest")` under `a`, or the default when there is no `a` |
| Configuration.Config.constructor | assignment_6/patterns/singleton.py:9-10 | the loaded document |
| Configuration.Config.Get | assignment_6/patterns/singleton.py:11-16 | the loop's result is `Lookup` |
| InstrumentFactory.Or | assignment_6/patterns/factory.py:7-8 | Python's `or`: the first value unless it is missing or empty |
| InstrumentFactory.KindOf | assignment_6/patterns/factory.py:9-12 | "bond" gives Bond, "etf" gives ETF, and everything else gives Stock |
| InstrumentFactory.CreateInstrument | assignment_6/patterns/factory.py:6-12 | a fresh instrument of `Spec`'s kind, symbol and name, with no prices |
| InstrumentFactory.TypeLookup | assignment_6/patterns/factory.py:7 | the type comes from `type`, else `Type`, else "", lower-cased |
| InstrumentFactory.BondAnyCase | assignment_6/patterns/factory.py:7-10 | "bond" in any of its usual cases makes a bond |
| InstrumentFactory.MissingTypeIsStock | assignment_6/patterns/factory.py:7-12 | a row without a type makes a stock |
| InstrumentFactory.SymbolAndName | assignment_6/patterns/factory.py:8 | the symbol is `symbol` else `Symbol`; the name is `name`, else `Name`, else the symbol |
| PortfolioModels.Instrument.constructor | assignment_6/models.py:9-10 | the given symbol and name, and no prices |
| PortfolioModels.Instrument.AddPrice | assignment_6/models.py:11 | appends the price |
| PortfolioModels.Instrument.GetMetrics | assignment_6/models.py:12-13 | the symbol, and the last price or NaN (`None`) when there is none |
| PortfolioModels.Decorated.Prices | assignment_6/models.py:46-48 | every decorator reads the wrapped instrument's prices |
| PortfolioModels.SetPrices | assignment_6/models.py:50-52 | the setter replaces the wrapped instrument's prices |
| PortfolioModels.AddPrice | assignment_6/models.py:54-55 | the price lands on the wrapped instrument |
| PortfolioModels.Peak | assignment_6/models.py:83-85 | the running peak is at least -1e18, at least every price, and either -1e18 or one of the prices |
| PortfolioModels.DrawdownOf | assignment_6/models.py:83-86 | the drawdown is never positive |
| PortfolioModels.DrawdownIsWorst | assignment_6/models.py:83-86 | the drawdown is no larger than the fall of any price below a positive running peak |
| PortfolioModels.DrawdownAttained | assignment_6/models.py:83-86 | the drawdown is 0 or one of those falls |
| PortfolioModels.DrawdownAtLeastMinusOne | assignment_6/models.py:83-86 | with no negative prices the drawdown is at least -1 |
| PortfolioModels.NoDrawdownWhenRising | assignment_6/models.py:83-86 | prices that never fall have no drawdown |
| PortfolioModels.MaxDrawdown | assignment_6/models.py:82-87 | the loop computes `DrawdownOf` |
| PortfolioModels.GetMetrics | assignment_6/models.py:57-87 | the wrapped instrument's symbol and last price, plus the drawdown when a drawdown decorator is in the chain |
| PortfolioModels.Positions | assignment_6/models.py:34-37 | every element is a position |
| PortfolioModels.Add | assignment_6/models.py:31-32 | the child goes at the end of the group |
| PortfolioModels.AddValue | assignment_6/models.py:31-37 | adding a child adds its value and appends its positions |
| PortfolioModels.ValueIsSumOfPositions | assignment_6/models.py:24-37 | a portfolio is worth exactly the sum of its positions' values |
| PortfolioModels.Mark | assignment_6/models.py:25 | a position is marked at its instrument's last price, or at its entry price when the instrument has no prices |
| PortfolioModels.Value | assignment_6/models.py:24-33 | a position is worth its quantity times its mark; a long-only portfolio (no negative quantity or price anywhere) is worth at least 0 |
| PortfolioModels.ChildrenValue | assignment_6/models.py:33 | no children are worth 0; long-only children are worth at least 0 |
| PortfolioModels.ChildrenValueIsSumOfPositions | assignment_6/models.py:33-37 | a group's children are worth what their flattened positions are worth, and hold the same instruments |
| PortfolioModels.ChildrenValueAppend | assignment_6/models.py:33 | a group's value splits over a concatenation of children |
| PortfolioBuilding.PortfolioBuilder.constructor | assignment_6/patterns/builder.py:4 | an empty group with the given name, and no owner |
| PortfolioBuilding.PortfolioBuilder.AddPosition | assignment_6/patterns/builder.py:5-6 | appends one position, so the positions grow by it; returns the builder |
| PortfolioBuilding.PortfolioBuilder.AddSubportfolio | assignment_6/patterns/builder.py:7-8 | appends the other builder's group and its positions; the name is not used |
| PortfolioBuilding.PortfolioBuilder.SetOwner | assignment_6/patterns/builder.py:9 | only the owner changes |
| PortfolioBuilding.PortfolioBuilder.Build | assignment_6/patterns/builder.py:10 | the group built so far |
| SignalStrategies.Alias | assignment_6/patterns/strategy.py:12-13 | `kwargs.get(a, kwargs.get(b, default))` |
| SignalStrategies.SliceFrom | assignment_6/patterns/strategy.py:20 | Python's `s[k:]` for any integer k: a suffix of the right length |
| SignalStrategies.Max | assignment_6/patterns/strategy.py:34 | the largest element |
| SignalStrategies.Min | assignment_6/patterns/strategy.py:34 | the smallest element |
| SignalStrategies.MeanReversionSignals | assignment_6/patterns/strategy.py:17-24 | any signal is one order of 100 units for the tick's symbol with reason "mr"; nothing before the window fills |
| SignalStrategies.MeanReversionBand | assignment_6/patterns/strategy.py:20-24 | with a full window whose sum is positive: BUY exactly below avg·(1-th); SELL exactly above avg·(1+th) otherwise; nothing inside the closed band |
| SignalStrategies.MeanReversionRaises | assignment_6/patterns/strategy.py:19-21 | a zero window or a zero average raises |
| SignalStrategies.BreakoutSignals | assignment_6/patterns/strategy.py:31-37 | signals as above with reason "bo"; it raises exactly when the window is full but its slice is empty |
| SignalStrategies.BreakoutAtExtremes | assignment_6/patterns/strategy.py:34-37 | BUY exactly at the window's high; SELL exactly at its low when that is not also the high; a flat window buys |
| SignalStrategies.WindowHoldsNewest | assignment_6/patterns/strategy.py:18-20 | the window always ends with the newest price and has `min(window, len)` elements |
| SignalStrategies.MeanReversionStrategy.constructor | assignment_6/patterns/strategy.py:11-16 | window and threshold from the keyword aliases; empty history |
| SignalStrategies.MeanReversionStrategy.GenerateSignals | assignment_6/patterns/strategy.py:17-24 | records the price, then returns `MeanReversionSignals` |
| SignalStrategies.BreakoutStrategy.constructor | assignment_6/patterns/strategy.py:27-30 | window from the keyword aliases; empty history |
| SignalStrategies.BreakoutStrategy.GenerateSignals | assignment_6/patterns/strategy.py:31-37 | records the price, then returns `BreakoutSignals` |
| MovingAverages.Emit | assignment_3/strategies.py:19 | the two signals: the average under its name, and the price |
| MovingAverages.SumCons | assignment_3/strategies.py:17 | summing from the front equals summing from the back |
| MovingAverages.Last | assignment_3/strategies.py:29 | the last w prices, or all of them when there are fewer |
| MovingAverages.LastPush | assignment_3/strategies.py:29-37 | `append` on a deque of maxlen w keeps exactly the last w prices |
| MovingAverages.CorrectedStepKeepsSum | assignment_3/strategies.py:32-40 | with the intended guard, one tick keeps the running sum equal to the deque's sum |
| MovingAverages.CorrectedRunKeepsSum | assignment_3/strategies.py:32-41 | with the intended guard, the deque is the last w prices and the running sum is their sum |
| MovingAverages.WindowStepAgrees | assignment_3/strategies.py:38 | for w >= 2 the guard as written equals the intended one |
| MovingAverages.WindowRunKeepsSum | assignment_3/strategies.py:32-41 | for w >= 2 the code as written keeps the running sum equal to the deque's sum |
| MovingAverages.WindowOneAccumulates | assignment_3/strategies.py:38-40 | for w = 1 the running sum is the sum of every price seen |
| MovingAverages.WindowOneCounterexample | assignment_3/strategies.py:38-40 | prices 1 then 2 with w = 1: the deque holds [2] but the running sum is 3 |
| MovingAverages.NextWindow | assignment_3/strategies.py:32-40 | the state after one more price is one `WindowStep` |
| MovingAverages.NaiveMovingAverage.constructor | assignment_3/strategies.py:12-13 | empty history |
| MovingAverages.NaiveMovingAverage.GenerateSignals | assignment_3/strategies.py:15-19 | appends the price and reports the mean of the whole history |
| MovingAverages.CumulativeAverage.constructor | assignment_3/strategies.py:51-53 | a count of 0 and a sum of 0 |
| MovingAverages.CumulativeAverage.GenerateSignals | assignment_3/strategies.py:55-59 | reports the naive strategy's average: the mean of every price seen |
| MovingAverages.WindowedMovingAverage.constructor | assignment_3/strategies.py:27-30 | an empty deque and a running sum of 0 |
| MovingAverages.WindowedMovingAverage.GenerateSignals | assignment_3/strategies.py:32-42 | w = 0 raises; otherwise the deque is the last w prices; for w >= 2 the average is the mean of the last w prices; for w = 1 it is the sum of all prices |
| MovingAverages.WindowedMovingAverage.Receive | assignment_3/strategies.py:33-40 | one tick's state change is one `WindowStep` |
| Chunking.Chunks | assignment_7/parallel.py:21-24 | raises (`None`) exactly for an empty list, because the step of `range` is 0 |
| Chunking.SlicesConcat | assignment_7/parallel.py:24 | the slices, put back together, are the list |
| Chunking.SlicesLengths | assignment_7/parallel.py:24 | every slice has 1..m elements, all but the last exactly m |
| Chunking.ChunkSizeCovers | assignment_7/parallel.py:22-23 | `ceil(n / k) * k` covers n |
| Chunking.ChunksShape | assignment_7/parallel.py:21-24 | a non-empty list gives between 1 and max(1, k) non-empty chunks that concatenate to the list, all but the last of length ceil(len / max(1, k)) |
| PyText.Split | assignment_9/fix_parser.py:22 | `str.split`: the pieces hold no separator and join back to the text |
| PyText.SplitJoin | assignment_9/fix_parser.py:22 | splitting joined separator-free pieces gives them back |
| PyText.SplitTrailing | assignment_9/fix_parser.py:22 | a trailing separator adds one empty piece |
| PyText.SplitFirst | assignment_9/fix_parser.py:29 | `split(d, 1)`: the text before the first separator, and the rest |
| PyText.ReplaceChar | assignment_9/fix_parser.py:20 | `replace` on one character, position by position |
| PyText.ReplaceCharIdempotent | assignment_9/fix_parser.py:20 | after the replacement the character is gone, and a second replacement changes nothing |
| PyText.Upper | trading_backtester_project/backtester/order_book.py:39 | `upper`, character by character |
| PyText.Lower | assignment_6/patterns/factory.py:7 | `lower`, character by character |
| PyText.UpperIdempotent | trading_backtester_project/backtester/order_book.py:39 | upper-casing twice is upper-casing once |
| PyText.StrLtTotal | trading_backtester_project/backtester/order_book.py:7-12 | distinct strings are ordered one way or the other |
| PyText.RemoveFirst | assignment_6/patterns/command.py:10 | `list.remove`: the first equal element leaves; the multiset loses one copy |
| PyText.Abs | assignment_9/risk_engine.py:34 | `abs`: x or -x, never negative |
| PyText.ParseInt | assignment_9/main.py:14 | `int()` succeeds exactly on an optional sign followed by one or more decimal digits; anything else is the `ValueError` |
| PyText.Digits | assignment_9/main.py:14 | `str(n)`: a non-empty run of decimal digits |
| PyText.ParseIntDigits | assignment_9/main.py:14 | round trip: `int(str(n)) == n` and `int("-" + str(n)) == -n` |
| PyText.DigitsValueLeadingZero | assignment_9/main.py:14 | a leading zero does not change the value of a digit run |
| PyText.ParseIntSignsAndZeros | assignment_9/main.py:14 | `int("+t") == int(t)`, `int("-t") == -int(t)` (both failing together) and `int("0t") == int(t)` for unsigned `t`, so "+7" and "007" read as 7 |

## Left out

- **File, console and plot output.** The CSV order log, the JSON event file, `print` messages and the equity plot are left out. The order log and the event list are modelled as sequences of rows; the event timestamp is not modelled.
- **Wall clock and randomness.**
  - `time.time()` is a parameter `now` per bar in the backtester.
  - `approve_order` reads the clock twice (pruning, then appending) and `_log` reads it again. The model uses one reading for all of them.
  - `random.choice` in `submit_order` is the `Outcome` parameter, one per bar.
- **pandas indicator columns.** The rolling means, `_compute_rsi` and the rolling lookback extremes of `prepare_data` are inputs of each `Bar`. Only the lookback high and low are also given a reference definition (`Strategies.PriorHigh`, `Strategies.PriorLow`). The exponential averages of the RSI are floating-point statistics.
- **Metrics.** The Sharpe ratio and maximum drawdown of `_compute_metrics` are left out (square roots and standard deviations); only the profit and the final equity are modelled. The volatility and beta metrics of the decorators are left out for the same reason.
- **Heaps.** The `heapq` heaps are modelled as sequences sorted by the same comparison. A binary heap's internal layout is not modelled; only its first element is ever read.
- **Aliasing of orders.** Orders are values. Python shares one `Order` object between the book, the order manager and the execution reports. `run` never calls `match`, so a backtest is unaffected.
- Books.OrderBook.Match: each `Trade` that `Books.Cross` records holds a copy of the two orders with their quantities right after that fill. Python's `match` appends the live `Order` objects to `trades` and then keeps decrementing them in place. An order that trades several times in one call therefore shows its final quantity in every one of its tuples, and later changes to the order show up there too.
- **Text built-ins.**
  - `upper`/`lower` map ASCII letters only.
  - The `isinstance(raw, str)` check of `parse` cannot fail on a Dafny string.
- PyText.ParseInt: accepts an optional sign followed by ASCII digits only. Python's `int()` also accepts surrounding whitespace, underscores between digits and non-ASCII decimal digits, so " 5", "1_000" and "٣" parse in Python but fail in the model.
- **Floating point.** Python floats are Dafny reals, and NaN is `None`. Rounding, infinities and the `1e-9`-style guards of the RSI are not modelled.
- **Module entry points.** The `__main__` blocks of the FIX gateway and the parser are left out.
- **Singletons.** The FIX logger's and the configuration's singleton behaviour (`__new__`, the lock) is left out. Each model is one object the caller passes around. `Config.load` reading a file is left out; the loaded document is a constructor argument. Non-dictionary JSON values are kept as opaque atoms.
- **Unused fields.** The instrument `meta` dictionary, `__repr__`, and the `ts`, `volume` and `extra` fields of a tick play no part in any modelled operation.
- PortfolioBuilding.PortfolioBuilder.AddSubportfolio: adds the other builder's group as it is at the time of the call. In Python the group object is shared, so later additions to the other builder also appear here.
- SignalStrategies.MeanReversionStrategy.constructor: keyword arguments are integers and reals. The `int()`/`float()` conversions of other types are not modelled.
- PatternEngine.Engine.OnTick: does not state that the commands it creates are fresh objects, only what they book.
- MovingAverages.WindowedMovingAverage.constructor: a negative window, which makes `deque` raise `ValueError`, is a precondition.
- Chunking.Chunks: models the list comprehension over `range(0, len(lst), m)` as recursion on the remaining list.

## Findings

| source | as written | input that shows it | evidently intended | confidence | as-written member | corrected member |
|---|---|---|---|---|---|---|
| assignment_3/strategies.py:38-40 | the oldest price is subtracted only when `len(self.buf) > 1 and len(self.buf) == self.window` | window 1, prices 1.0 then 2.0: the deque holds [2.0] but the running sum is 3.0, so the reported average is 3.0 | subtract the evicted price whenever the deque was full (`len == window`), so that the running sum is always the sum of the deque | not executed | MovingAverages.WindowOneCounterexample | MovingAverages.CorrectedRunKeepsSum |
