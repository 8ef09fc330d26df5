# pyfback core, modelled in Dafny

pyfback is a futures back-tester. This project models the parts that hold its bookkeeping and proves what they promise.

- **Bars** (`bar.dfy`). An OHLCV bar is validated when it is built. It has derived prices (typical, weighted) and candle measurements (range, body, shadows).
- **Signals** (`signals.dfy`). A trading signal is validated on construction and has a direction and four factories. The signal generator keeps the last signal and a history, and applies a threshold rule against a reference price.
- **Positions** (`position.dfy`). A position per contract has a side, a size, an average price and realized and unrealized P&L. It is marked, added to, reduced, closed and reversed in place.
- **Position manager** (`position_manager.dfy`). A registry maps symbols to positions. It dispatches target updates and computes totals over its entries.
- **Trades** (`trade.dfy`). A trade record has a type, a status and costs. It can be filled, cancelled and rejected in place. It computes P&L and converts to and from a field map.
- **Trade ledger** (`trade_manager.dfy`). An append-only history of trades with an id index, filters, totals over the filled trades, and a summary of counts.
- **Strategy** (`strategy.dfy`). The strategy base keeps a bounded bar history of at most 1000 bars. `update_bar` records the bar, marks the position and records the signal `on_bar` returns. It provides history slices and simple moving averages, and implements the moving-average crossover of `SimpleStrategy`.
- **Data cache** (`data_cache.dfy`). The in-memory tier of the data cache: a dictionary with a least-recently-used access order and a capacity.

## How the source is modelled

- **Numbers.** Python floats are modelled as `real`. Integers (volumes, counts) are `int`.
- **Values that change in place.** Every entity the source changes in place is a `class`. Its methods carry `modifies` clauses and are proved against pure specification functions on a value snapshot, `Data()` (for example `Position.ReducePosition` against `Positions.Reduce`). Properties of several operations are proved as lemmas about those functions.
- **Exceptions.** Every exception becomes an error value (`Result`/`Option`). There is one exception, the flat factory; see "Documentation versus code" below.
- **Dictionaries.** `to_dict`/`from_dict` work on a map from field names to tagged values (string, float, int, datetime, null, nested dictionary). `from_dict` behaves like `cls(**data)`:
  - a missing required key or an unknown key is a field error;
  - optional keys take their defaults;
  - a field annotated `float` accepts an int or a float, and a field annotated `int` accepts an int or a float with no fractional part;
  - a value of any other kind is a field error, although a dataclass would store it (see "Left out");
  - the constructor's checks then run.
- **Inputs from outside.** The wall clock (`datetime.now()`) and generated trade ids (`uuid4`) are parameters supplied by the caller (`now`, `id`).
- **Documentation versus code.** Where the project's documentation and its code disagree, the model follows the code. The cases are:
  - reversing a position always ends LONG;
  - adding on a FLAT-side position keeps the side FLAT;
  - reducing a position to zero does not reset its average price;
  - reducing and then adding back restores the average price only when the reduce price equals it;
  - filling a trade twice does not raise;
  - asking the manager to keep a position's side at an equal or smaller size raises.

  The lemmas named in the table below state each case.

  The model follows the evident intent instead in one place: the flat position.
  - As written, `create_flat_position` always raises (see "Findings").
  - So `get_position` and `update_position` raise for a symbol that is not registered (strategy/position.py:289-290 and 304-305). The same holds for the crossover's position look-up (strategy/base.py:379, through 161).
  - PositionManagers.PositionManager.GetPosition, PositionManagers.PositionManager.UpdatePosition and Strategies.Strategy.Cross register the corrected flat position (Positions.FlatPosition) there instead.

## Model

| member | source | states |
|---|---|---|
| Bars.Check | data/bar.py:27-36 | no error exactly when the bar is valid; the high check comes first and fires exactly when high is below open, close or low |
| Bars.MakeBar | data/bar.py:27-36 | a bar is built exactly when low ≤ open, close ≤ high and volume and open interest are non-negative; the bar holds the given fields |
| Bars.TypicalPrice | data/bar.py:38-41 | three times the result is high + low + close; on a valid bar it lies within [low, high] |
| Bars.WeightedPrice | data/bar.py:43-46 | four times the result is open + high + low + close; on a valid bar it lies within [low, high] |
| Bars.PriceRange | data/bar.py:48-51 | never negative on a valid bar |
| Bars.BodySize | data/bar.py:53-56 | non-negative, and equal to close − open or open − close |
| Bars.UpperShadow | data/bar.py:58-61 | high minus max(open, close); non-negative on a valid bar |
| Bars.LowerShadow | data/bar.py:63-66 | min(open, close) minus low; non-negative on a valid bar |
| Bars.RangeDecomposes | data/bar.py:48-66 | the range is the upper shadow plus the body plus the lower shadow |
| Bars.CandleKindExclusive | data/bar.py:68-81 | every bar is exactly one of bullish, bearish, doji |
| Bars.DojiRange | data/bar.py:53-81 | a doji has a zero body, so its range is its two shadows |
| Bars.ToDict | data/bar.py:83-95 | the map has exactly the bar's field names, with the close and the freq stored as given |
| Bars.FromDict | data/bar.py:97-100 | a bar that comes out is valid and was built only from known fields; a missing freq defaults to "1min"; prices may be ints or floats, and counts ints or whole floats |
| Bars.RoundTrip | data/bar.py:83-100 | from_dict(to_dict(b)) gives back b for every valid bar |
| Bars.IntegerPricesAccepted | data/bar.py:97-100 | a map that gives the four prices as integers builds the same bar |
| Bars.WholeFloatCountsAccepted | data/bar.py:97-100 | a map that gives volume and open interest as whole floats builds the same bar |
| Signals.ParseType | strategy/signals.py:11-18 | a parsed type has exactly the given value string |
| Signals.ParseTypeName | strategy/signals.py:11-18 | every type parses back from its value string |
| Signals.Validated | strategy/signals.py:39-51 | accepted exactly when the signal is valid; a zero quantity is reported first; a missing limit price is reported exactly for a non-zero LIMIT signal without one |
| Signals.Direction | strategy/signals.py:53-68 | the result is in {−1, 0, 1}, and it is 0 exactly for the three close types |
| Signals.DirectionIsSignedBias | strategy/signals.py:53-68 | on a valid signal the direction is the sign of the quantity scaled by the type's bias (+1 buy and hold, −1 sell, 0 for the close types) |
| Signals.ExactlyOneKind | strategy/signals.py:70-83 | every signal is exactly one of long, short, close |
| Signals.AbsQuantity | strategy/signals.py:95-98 | ± the quantity, and positive on a valid signal |
| Signals.BuySignal | strategy/signals.py:123-134 | fails (zero quantity) exactly when the quantity is 0; otherwise a BUY of direction +1 for \|quantity\| on the symbol |
| Signals.SellSignal | strategy/signals.py:136-147 | fails exactly when the quantity is 0; otherwise a SELL of direction −1 for \|quantity\| |
| Signals.CloseSignal | strategy/signals.py:149-160 | succeeds exactly when a non-zero quantity is given, and is then a close signal of that quantity |
| Signals.ZeroQuantityFactoriesFail | strategy/signals.py:149-173 | the hold factory and a close factory without a quantity (or with 0) always raise the zero-quantity error |
| Signals.ValidatedCloseAll | strategy/signals.py:39-51 | the corrected check: non-close signals are checked as before; a close with quantity 0 is accepted as "close everything" |
| Signals.CloseAllAccepted | strategy/signals.py:149-160 | under the corrected check a quantity-less close signal is valid |
| Signals.ToDict | strategy/signals.py:100-113 | the map has exactly the signal's fields, with the type stored by its value string |
| Signals.FromDict | strategy/signals.py:115-121 | a signal that comes out is valid and built only from known fields; without a price type it is a market order |
| Signals.RoundTrip | strategy/signals.py:100-121 | from_dict(to_dict(s)) gives back s for every valid signal |
| Signals.IntegerQuantityAccepted | strategy/signals.py:115-121 | a map that gives the quantity as an integer (as the factories' `quantity=1` does) builds the same signal |
| Signals.SimpleSignalGenerator.constructor | strategy/signals.py:237-251 | stores the symbol and thresholds, with no reference price and an empty history |
| Signals.SimpleSignalGenerator.AddSignal | strategy/signals.py:211-214 | the signal becomes the last signal and is appended to the history; the invariant (last signal = newest history entry) is kept |
| Signals.SimpleSignalGenerator.GetLastSignal | strategy/signals.py:216-218 | none exactly when the history is empty, otherwise its newest entry |
| Signals.SimpleSignalGenerator.GetSignalHistory | strategy/signals.py:220-222 | the stored history itself; it is empty exactly when there is no last signal, and otherwise ends with it |
| Signals.SimpleSignalGenerator.ClearHistory | strategy/signals.py:224-227 | empties the history and the last signal, and keeps the reference price |
| Signals.SimpleSignalGenerator.SetReferencePrice | strategy/signals.py:253-255 | sets the reference price and leaves the history alone |
| Signals.SimpleSignalGenerator.GenerateSignal | strategy/signals.py:257-297 | with no reference price: the price becomes the reference and nothing is signalled; above reference·buy threshold: the BUY factory's result; else below reference·sell threshold: the SELL factory's result; otherwise none; a returned signal is recorded and moves the reference to the price, while a failed factory changes nothing |
| Positions.ParseSide | strategy/position.py:11-15 | a parsed side has exactly the given value string |
| Positions.Validated | strategy/position.py:34-43 | accepted exactly when the quantity is non-negative and both prices are positive; a negative quantity is reported first |
| Positions.LongPosition | strategy/position.py:221-232 | succeeds exactly for a non-negative quantity and a positive price, giving a LONG of that size at that average price |
| Positions.ShortPosition | strategy/position.py:234-245 | the same for SHORT |
| Positions.FlatFactoryAlwaysRejected | strategy/position.py:247-257 | the flat factory as written always fails the constructor's positive-average-price check |
| Positions.FlatPosition | strategy/position.py:247-257 | the corrected flat position: flat, nothing held, zero market and cost value, zero P&L |
| Positions.ExactlyOneState | strategy/position.py:45-58 | a position of non-negative size is exactly one of long, short, flat |
| Positions.UnrealizedPnl | strategy/position.py:70-92 | 0 when flat; otherwise side sign × quantity × (price − average), where a price of 0 or none falls back to the current price |
| Positions.Mark | strategy/position.py:94-98 | sets the current price and timestamp and recomputes the unrealized P&L; side, size, average and realized P&L are unchanged |
| Positions.MarkIdempotent | strategy/position.py:94-98 | marking twice at the same price is the same as marking once |
| Positions.Add | strategy/position.py:100-121 | fails exactly for a non-positive quantity; on a flat position the fill sets size and average; otherwise the size grows and the average is the quantity-weighted mean; side and realized P&L are unchanged |
| Positions.AddRunWeightedAverage | strategy/position.py:100-121 | after any run of positive fills on a LONG/SHORT position, the size grows by the total filled and the cost grows by Σ q·p |
| Positions.AddOnOpenSide | strategy/position.py:100-121 | one positive fill adds its quantity to the size and q·p to the cost value |
| Positions.AddRunFromZero | strategy/position.py:100-121 | opening from zero size, the average price after a run of fills is Σ q·p / Σ q |
| Positions.AddOnFlatSideOverwrites | strategy/position.py:100-121 | on a FLAT-side position every add restarts the average at the fill price, so a second fill does not average |
| Positions.Reduce | strategy/position.py:123-155 | a non-positive quantity fails first, then one above the size; otherwise the size shrinks, the signed gain of the reduced units is realized and returned, and the average is kept |
| Positions.ReducePnlBySide | strategy/position.py:123-155 | on an open position the realized P&L is side sign × quantity × (price − average) |
| Positions.ReduceThenAdd | strategy/position.py:100-155 | a partial reduce followed by adding the same quantity back restores the average exactly when the reduce price equals it |
| Positions.Close | strategy/position.py:157-170 | a flat position is untouched and realizes 0; an open one is reduced by its full size; the result is flat |
| Positions.Reverse | strategy/position.py:172-193 | realizes the closing P&L, then opens the new quantity at the price on a non-flat side; a non-positive new quantity just closes |
| Positions.ReverseAlwaysLong | strategy/position.py:172-193 | as written, reversing an open position with a positive quantity always ends LONG |
| Positions.ReverseFlipped | strategy/position.py:172-193 | the corrected reversal realizes the same P&L and ends on the side opposite to the old one |
| Positions.OpenAddReduceExample | strategy/position.py:100-155 | worked example: from LONG with zero size, add 5 @ 4000 and 5 @ 4100 (average 4050), then reducing 4 @ 4200 realizes 600 and keeps 6 at average 4050 |
| Positions.ReverseExample | strategy/position.py:172-193 | worked example: reversing LONG 10 @ 100 into 8 at 110 realizes 100 and ends LONG 8 @ 110 |
| Positions.ToDict | strategy/position.py:195-208 | the map holds the stored fields plus market value and cost value |
| Positions.FromDict | strategy/position.py:210-219 | a position that comes out has non-negative size and positive prices |
| Positions.RoundTrip | strategy/position.py:195-219 | every position that passes the constructor's checks survives to_dict then from_dict |
| Positions.IntegerAmountsAccepted | strategy/position.py:210-219 | a map that gives quantity, average price and current price as integers builds the same position |
| Positions.FlatDoesNotRoundTrip | strategy/position.py:195-257 | a flat position (zero prices) is refused by from_dict of its own to_dict |
| Positions.Position.constructor | strategy/position.py:34-43 | accepts only field values that pass the constructor's checks, or the zero-valued flat position; the object holds them and satisfies the position invariant |
| Positions.Position.UpdatePrice | strategy/position.py:94-98 | the new state is Mark of the old one |
| Positions.Position.AddPosition | strategy/position.py:100-121 | the new state is Add of the old one; on error nothing changes |
| Positions.Position.ReducePosition | strategy/position.py:123-155 | the new state and returned P&L are Reduce of the old state; on error nothing changes |
| Positions.Position.ClosePosition | strategy/position.py:157-170 | the new state and returned P&L are Close of the old state |
| Positions.Position.ReversePosition | strategy/position.py:172-193 | the new state and returned P&L are Reverse of the old state |
| PositionManagers.Target | strategy/position.py:304-332 | the dispatch as written: FLAT closes; an opposed open position is reversed (ending LONG); otherwise the side is set and the size becomes the requested quantity, except that it raises when an open position is asked for an equal or smaller size on its side |
| PositionManagers.TargetShrinkRaises | strategy/position.py:304-332 | keeping an open position's side at an equal or smaller size raises |
| PositionManagers.TargetShortOnLongEndsLong | strategy/position.py:304-332 | a SHORT request on a long position ends LONG with the requested size |
| PositionManagers.TargetIntended | strategy/position.py:293-332 | the corrected dispatch: FLAT ends flat; any other side ends on that side with exactly the requested size; a shrink realizes the cut |
| PositionManagers.TargetAgreesWhenItSucceeds | strategy/position.py:293-332 | wherever the dispatch as written succeeds and is not a reversal, it equals the corrected one |
| PositionManagers.TotalMarket | strategy/position.py:357-360 | 0 when every entry is flat |
| PositionManagers.Active | strategy/position.py:344-347 | exactly the non-flat entries |
| PositionManagers.TotalMarketIsActiveSum | strategy/position.py:344-360 | the total market value is the plain sum over the active entries |
| PositionManagers.NewFlatEntryAddsNothing | strategy/position.py:279-291 | registering a new flat position changes none of the three totals |
| PositionManagers.TotalRealizedSnoc | strategy/position.py:353-355 | registering one more position adds its realized P&L to the total |
| PositionManagers.OneChangedTotal | strategy/position.py:353-355 | when only one entry's realized P&L changes, the total moves by exactly that change |
| PositionManagers.OneEntryTotal | strategy/position.py:293-355 | one entry changed in place or newly appended moves the total realized P&L by that entry alone |
| PositionManagers.Dispatch | strategy/position.py:304-332 | the position's new state and error are exactly Target of its old state |
| PositionManagers.PositionManager.constructor | strategy/position.py:275-277 | an empty registry |
| PositionManagers.PositionManager.Snapshot | strategy/position.py:268-277 | the registered positions' values in insertion order |
| PositionManagers.PositionManager.GetPosition | strategy/position.py:279-291 | returns the registered position, or registers a new flat one at the end; nothing else changes |
| PositionManagers.PositionManager.UpdatePosition | strategy/position.py:293-332 | the symbol's position ends as Target of its old value (or of a new flat one); every other position is unchanged; the total realized P&L moves by exactly the change in that position's realized P&L |
| PositionManagers.PositionManager.Apply | strategy/position.py:293-332 | the look-up and dispatch: the symbol's position ends as Target of its old value (or of a new flat one); the key order grows only by a new symbol; every other position is unchanged |
| PositionManagers.PositionManager.MarkOne | strategy/position.py:334-338 | the one position is marked; all others are unchanged |
| PositionManagers.PositionManager.UpdatePrices | strategy/position.py:334-338 | every registered symbol with a price is marked at it; every other position is unchanged; the total realized P&L is unchanged |
| PositionManagers.PositionManager.MarkAll | strategy/position.py:334-338 | the loop: every registered symbol with a price is marked at it, and nothing else changes |
| PositionManagers.PositionManager.ActivePositions | strategy/position.py:344-347 | exactly the registered entries that are not flat |
| PositionManagers.PositionManager.TotalMarketValue | strategy/position.py:357-360 | the sum of market values over the active entries; 0 when none is active |
| PositionManagers.PositionManager.ClearPositions | strategy/position.py:362-364 | the registry is empty |
| Trades.ParseType | engine/trade.py:12-17 | a parsed type has exactly the given value string |
| Trades.ParseStatus | engine/trade.py:20-25 | a parsed status has exactly the given value string |
| Trades.NamesParse | engine/trade.py:12-25 | every type and status parses back from its value string |
| Trades.Validated | engine/trade.py:49-58 | accepted exactly when the trade is valid; a non-positive quantity is reported first |
| Trades.NewTrade | engine/trade.py:188-246 | the factories succeed exactly for a positive quantity and price (a bad quantity is reported first); the PENDING trade of the requested type carries the given id, symbol, quantity and price, no slippage, no realized P&L, no order price and empty metadata |
| Trades.TotalCost | engine/trade.py:60-69 | value + commission + quantity·\|slippage\|; never below the value of a valid trade |
| Trades.SidesPartition | engine/trade.py:71-104 | every trade is on exactly one side and is exactly one of buy, sell, close |
| Trades.CalculatePnl | engine/trade.py:136-149 | long side: quantity × (exit − price); short side: its negation |
| Trades.PnlMirror | engine/trade.py:136-149 | the mirrored type has the opposite P&L; exiting at the entry price gives 0 |
| Trades.TradePnlMatchesReduce | engine/trade.py:136-149 | a trade's P&L equals what reducing the matching position by it realizes |
| Trades.FillSpec | engine/trade.py:106-119 | status FILLED, the price replaced only when a fill price is given, fill time as given or now; nothing else changes |
| Trades.CancelSpec | engine/trade.py:121-123 | status CANCELLED; nothing else changes |
| Trades.RejectSpec | engine/trade.py:125-134 | status REJECTED; a reason is stored in existing metadata, and a reason with no metadata raises |
| Trades.FillKeepsValid | engine/trade.py:106-119 | filling a valid trade at a positive (or no) fill price keeps it valid |
| Trades.TerminalStatusOverwritten | engine/trade.py:106-134 | as written, a cancelled or rejected trade can still be filled, and then cancelled |
| Trades.Transition | engine/trade.py:106-134 | the guarded status machine: refused exactly from a terminal status; otherwise it reaches the event's terminal status |
| Trades.TerminalIsFinal | engine/trade.py:106-134 | under the guard, events do not change a terminal trade |
| Trades.RunChangesStatusOnce | engine/trade.py:106-134 | under the guard, a pending trade ends as the first event made it |
| Trades.ToDict | engine/trade.py:151-169 | the stored fields plus trade value and total cost |
| Trades.GetMetadata | engine/trade.py:171-186 | missing metadata defaults to an empty dictionary |
| Trades.FromDict | engine/trade.py:171-186 | a trade that comes out is valid |
| Trades.RoundTrip | engine/trade.py:151-186 | from_dict(to_dict(t)) gives back t for every valid trade |
| Trades.IntegerAmountsAccepted | engine/trade.py:171-186 | a map that gives quantity, price and commission as integers builds the same trade |
| Trades.Trade.constructor | engine/trade.py:29-58 | accepts only field values that pass the constructor's checks; the object holds them and is valid |
| Trades.Trade.Fill | engine/trade.py:106-119 | the new state is FillSpec of the old one |
| Trades.Trade.Cancel | engine/trade.py:121-123 | the new state is CancelSpec of the old one |
| Trades.Trade.Reject | engine/trade.py:125-134 | the new state and error are RejectSpec of the old state |
| TradeLedger.Select | engine/trade.py:280-298 | a subsequence holding exactly the trades that pass the filter |
| TradeLedger.SelectSingle | engine/trade.py:280-298 | one trade is selected exactly when it passes the filter |
| TradeLedger.SelectSnoc | engine/trade.py:271-298 | appending a trade to the history appends it to the selection exactly when it passes |
| TradeLedger.SelectAppend | engine/trade.py:280-298 | selecting from two runs is selecting from each in order, so history order and repeats are kept |
| TradeLedger.SelectCount | engine/trade.py:285-298 | the length of a selection is the number of history positions that pass the filter |
| TradeLedger.DisjointCounts | engine/trade.py:285-293 | two filters no trade passes together select at most the whole history |
| TradeLedger.TypeCountsPartition | engine/trade.py:295-298 | the four per-type counts add up to the history's length |
| TradeLedger.SumOf | engine/trade.py:300-306 | a sum of non-negative terms is non-negative |
| TradeLedger.SumOverSelected | engine/trade.py:300-306 | summing over the selected trades equals summing over all trades with the rest counted as 0 |
| TradeLedger.TradeManager.constructor | engine/trade.py:266-269 | an empty index and history |
| TradeLedger.TradeManager.AddTrade | engine/trade.py:271-274 | the trade is indexed by its id, replacing an earlier one, and appended; other ids are unchanged; the count grows by one; the filled, pending, per-symbol and per-type lists each gain the trade at their end exactly when it passes their filter |
| TradeLedger.TradeManager.GetTrade | engine/trade.py:276-278 | present exactly when the id is indexed, and then the indexed trade; under the ledger invariant, one of the history's trades |
| TradeLedger.TradeManager.TradesBySymbol | engine/trade.py:280-283 | exactly the history's trades on the symbol |
| TradeLedger.TradeManager.FilledTrades | engine/trade.py:285-288 | exactly the history's FILLED trades |
| TradeLedger.TradeManager.PendingTrades | engine/trade.py:290-293 | exactly the history's PENDING trades |
| TradeLedger.TradeManager.TradesByType | engine/trade.py:295-298 | exactly the history's trades of the type |
| TradeLedger.TradeManager.TotalCommission | engine/trade.py:300-302 | commission summed over the filled trades only; non-negative when every commission is |
| TradeLedger.TradeManager.TotalRealizedPnl | engine/trade.py:304-306 | realized P&L summed over the filled trades only |
| TradeLedger.TradeManager.FilledTradeCount | engine/trade.py:312-314 | the number of history positions holding a FILLED trade (repeats counted), so between 0 and the trade count |
| TradeLedger.TradeManager.TradeSummaryOf | engine/trade.py:331-345 | the total is the history's length; filled + pending never exceed it; the four type counts add up to it; the money totals are over the filled trades |
| TradeLedger.TradeManager.SummaryExample | engine/trade.py:331-345 | a filled buy, a filled sell and a pending buy give 3 trades, 2 filled, 1 pending |
| TradeLedger.TradeManager.ClearTrades | engine/trade.py:316-319 | index and history are empty; count and commission are 0 |
| Strategies.Trimmed | strategy/base.py:302-305 | the last min(\|h\|, max_size) bars, with max_size 0 keeping everything |
| Strategies.LastN | strategy/base.py:181-191 | the last min(\|h\|, count) bars for a positive count, else the whole history |
| Strategies.Prices | strategy/base.py:193-213 | one price per bar, read from the chosen field |
| Strategies.Sma | strategy/base.py:215-230 | none while fewer than period bars exist; otherwise the mean of the chosen prices over the last period bars (over all bars for a non-positive period); a division by zero exactly for a non-positive period on an empty history |
| Strategies.SmaBetween | strategy/base.py:215-230 | a moving average lies between any bounds of the prices |
| Strategies.TrimKeepsWindows | strategy/base.py:181-191 | trimming to max_size never changes a window of at most max_size bars |
| Strategies.SmaUnaffectedByTrim | strategy/base.py:215-230 | every average over at most 1000 bars is the same on the trimmed history as on the full one |
| Strategies.Crossover | strategy/base.py:379-396 | fast above slow on a flat position: a BUY of 1; fast below slow on a long: the close factory raises; otherwise none |
| Strategies.CrossoverIntended | strategy/base.py:379-396 | the corrected rule never fails, and emits a close signal when fast is below slow on a long |
| Strategies.OnBarSpec | strategy/base.py:55-68 | a custom strategy's decision is returned as is; the crossover stays silent until both averages exist |
| Strategies.CrossoverNeverClosesALong | strategy/base.py:366-396 | as written, the crossover never returns a signal for a long position |
| Strategies.Recorded | strategy/base.py:151-157 | at most one signal: the one on_bar returned, if any |
| Strategies.Strategy.constructor | strategy/base.py:24-53 | not initialized, not running, no bars, no signals, an empty position registry |
| Strategies.Strategy.Start | strategy/base.py:70-78 | initialized and running; the data is unchanged |
| Strategies.Strategy.Finish | strategy/base.py:80-88 | not running; the data is unchanged |
| Strategies.Strategy.ManageHistorySize | strategy/base.py:302-305 | the history becomes Trimmed of the old one, at most max_size bars |
| Strategies.Strategy.Cross | strategy/base.py:372-396 | the signal is Decide over the position the symbol had; no registered position changes |
| Strategies.Strategy.OnBar | strategy/base.py:366-396 | the signal is OnBarSpec over the current history and the symbol's position; the indicators are Indicated over the history; at most the bar's symbol is registered; bars and signals are unchanged |
| Strategies.Strategy.RecordBar | strategy/base.py:139-144 | the bar becomes current, is counted, and ends the history trimmed to 1000 |
| Strategies.Strategy.Advance | strategy/base.py:139-148 | RecordBar, then the registered position of the bar's symbol is marked at the close; no other position changes |
| Strategies.Strategy.RecordSignal | strategy/base.py:151-157 | the recorded signals are appended to the signal history |
| Strategies.Strategy.Respond | strategy/base.py:150-157 | the returned signal is OnBarSpec, and it is appended to the signal history; indicators and registry as in OnBar |
| Strategies.Strategy.Step | strategy/base.py:137-157 | the running path: bar recorded; the bar's registered position marked at the close and every other one unchanged; at most the bar's symbol newly registered; indicators as Indicated; on_bar's signal recorded and returned |
| Strategies.Strategy.UpdateBar | strategy/base.py:125-157 | stopped: returns none and changes nothing; running: the bar is current, counted and last in the trimmed history; the bar's registered position is marked at the close, every other one is unchanged, and at most the bar's symbol is newly registered; the indicators are Indicated over the new history; the signal is OnBarSpec over the marked position and is recorded |
| DataCaches.IndexOf | data/data_cache.py:70-74 | the first position of the key, or the length when the key is absent |
| DataCaches.RemoveFirst | data/data_cache.py:70-74 | list.remove: unchanged when the key is absent, otherwise one shorter |
| DataCaches.RemoveFirstNoDup | data/data_cache.py:154-161 | on a list without duplicates, removal keeps it duplicate-free and drops exactly the key |
| DataCaches.RemoveFirstIsWithout | data/data_cache.py:154-161 | on a list without duplicates, removing the first occurrence filters out the key and keeps the order |
| DataCaches.Touch | data/data_cache.py:70-74 | the key ends the access order |
| DataCaches.TouchNoDup | data/data_cache.py:70-74 | after a touch the key occurs once, last, and the other keys are the same |
| DataCaches.TouchKeepsTracking | data/data_cache.py:86-89 | touching a key that is cached keeps "the order lists exactly the cached keys" |
| DataCaches.Evict | data/data_cache.py:62-68 | success leaves at most max entries; failure means the order ran empty; nothing happens within capacity |
| DataCaches.EvictKeepsValues | data/data_cache.py:62-68 | eviction only deletes; no remaining value changes |
| DataCaches.EvictLeavesSuffix | data/data_cache.py:62-68 | keys are evicted from the front of the access order only |
| DataCaches.EvictDropsPopped | data/data_cache.py:62-68 | the keys evicted are exactly the cached keys in the popped prefix |
| DataCaches.EvictSucceeds | data/data_cache.py:62-68 | with a non-negative capacity and every cached key listed, eviction never pops an empty list |
| DataCaches.EvictKeepsTracking | data/data_cache.py:62-68 | eviction keeps the order duplicate-free and listing exactly the cached keys |
| DataCaches.EvictKeepsLast | data/data_cache.py:62-68 | with room for one entry the most recently used key survives |
| DataCaches.DataCache.constructor | data/data_cache.py:26-41 | an empty memory tier with the given capacity |
| DataCaches.DataCache.UpdateAccessOrder | data/data_cache.py:70-74 | the order becomes Touch of the old one |
| DataCaches.DataCache.ManageMemoryCache | data/data_cache.py:62-68 | the state and the success flag are Evict of the old state |
| DataCaches.DataCache.Set | data/data_cache.py:76-93 | store, touch, evict; succeeds exactly for a non-negative capacity, which then bounds the size; with room for one the new value is kept; other kept values are unchanged |
| DataCaches.DataCache.Get | data/data_cache.py:95-122 | a hit exactly when the key is cached, returning its value and moving it last; a miss changes nothing |
| DataCaches.DataCache.Remove | data/data_cache.py:143-168 | true exactly when the key was cached; the key leaves the memory and the order |
| DataCaches.DataCache.Clear | data/data_cache.py:170-184 | memory and order are empty |

## Left out

- The disk tier of the data cache is not modelled. This covers pickle files, `_save_to_disk`, `_load_from_disk`, `_disk_cache_exists` and `_remove_from_disk`, and the disk branches of get, has, remove and clear. It is file I/O.
- DataCache `_generate_key` is not modelled: it is an MD5 hash. `cache_data`, `get_cached_data`, `get_cache_info` and the global cache are not modelled either: they are wrappers over the hashed key and process-global state.
- DataCaches.DataCache.ManageMemoryCache: the `IndexError` that `pop(0)` raises on an empty access order is returned as `ok == false`.
- DataCaches.DataCache.Has: only the memory test is modelled; it has no contract of its own.
- Floating point is modelled as exact real arithmetic: rounding is not captured.
- The wall clock and `uuid4` ids are parameters supplied by the caller.
- `__repr__`, the pandas `to_dataframe`, `_print_summary` and the logging calls are not modelled: they are output only.
- `calculate_ema` and `calculate_volatility` are not modelled: they need floating-point exponentials and square roots.
- The strategy's parameter and state getters and setters are not modelled. They are plain dictionary accessors. This covers `set_params`, `get_params`, `get_param`, `get_state`, `set_state`, `get_indicator`, `get_strategy_info`, `on_trade` and `get_current_price`. `set_indicator` is modelled only as the indicators the crossover stores.
- PositionManager `get_all_positions` and `to_dict` are not modelled: they copy the registry.
- config.py, setup.py, data/data_handler.py and data/utils.py are not part of this model.
- Strategies.OnBarSpec: a custom `on_bar` is a function of the bar history and the bar only. It cannot read the strategy's other state.
- Strategies.Strategy.ManageHistorySize takes a natural number: a negative `max_size` is not modelled.
- PositionManagers.PositionManager.UpdatePosition requires a non-negative quantity. A negative quantity would break the non-negative-size invariant.
- PositionManagers.Target requires a non-negative quantity, for the same reason.
- PositionManagers.Dispatch requires a non-negative quantity, for the same reason.
- PositionManagers.PositionManager.GetPosition registers the corrected flat position for an unregistered symbol, where the source raises. The raise is stated by Positions.FlatFactoryAlwaysRejected.
- PositionManagers.PositionManager.Apply registers the corrected flat position for an unregistered symbol, where the source raises.
- Strategies.Strategy.Cross registers the corrected flat position for an unregistered symbol, where the source's `get_position` raises.
- Bars.FromDict refuses a fractional float for volume or open interest, which the dataclass would store. It also refuses values of other kinds, such as a number as the symbol, which the dataclass stores when no check compares them.
- Signals.FromDict refuses values of a kind other than the field's, which the dataclass may store. For a map with several faults it may report a different fault than Python, which converts `signal_type` before `cls(**data)` checks the keys.
- Positions.FromDict refuses values of a kind other than the field's, which the dataclass may store. For a map with several faults it may report a different fault than Python, which converts `side` first.
- Trades.FromDict refuses values of a kind other than the field's, which the dataclass may store. For a map with several faults it may report a different fault than Python, which converts `trade_type` and `status` first.
- Positions.Add requires a non-negative size. The source does not check that itself; every position in this model keeps it.
- PositionManagers.PositionManager.TotalUnrealizedPnl and TotalRealizedPnl are plain sums with no contract of their own. Their properties are stated by NewFlatEntryAddsNothing, OneEntryTotal and the realized-total clauses of UpdatePosition and UpdatePrices.
- Keyword overrides (`**kwargs`) passed to the trade and signal factories are not modelled.

## Findings

| source | as written | input that shows it | evidently intended | confidence | as-written member | corrected member |
|---|---|---|---|---|---|---|
| strategy/position.py:247-257 | `create_flat_position` passes `avg_price=0` and `current_price=0` through `__post_init__`, which rejects a non-positive average price | any symbol | a flat position with zero prices that is accepted | not executed | Positions.FlatFactoryAlwaysRejected | Positions.FlatPosition |
| strategy/position.py:172-193 | `reverse_position` reads the side after `close_position` has made it FLAT, so the new side is always LONG | LONG 10 @ 100, reversed with 5 @ 110 | the new exposure opens on the side opposite to the old one (SHORT here) | not executed | Positions.ReverseAlwaysLong | Positions.ReverseFlipped |
| strategy/position.py:304-332 | `update_position` on an open position on the same side calls `add_position(quantity - position.quantity)`, which raises when the target is not larger | LONG 10, `update_position(LONG, 5)` | the position is set to the requested size, realizing the cut | not executed | PositionManagers.TargetShrinkRaises | PositionManagers.TargetIntended |
| engine/trade.py:106-134 | `fill`, `cancel` and `reject` never look at the current status, so a cancelled or rejected trade can be filled | a CANCELLED trade, then `fill()` | terminal statuses are final | not executed | Trades.TerminalStatusOverwritten | Trades.TerminalIsFinal |
| strategy/base.py:390-394 | the crossover's close rule calls `close_signal` without a quantity, which builds quantity 0 and fails the zero-quantity check | any long position once the fast average falls below the slow one | a quantity-less close means "close everything" | not executed | Strategies.CrossoverNeverClosesALong | Strategies.CrossoverIntended |
