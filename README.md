# Hydra-HFT in Dafny

A verified model of the decision and bookkeeping core of Hydra-HFT, a small
crypto trading system. A C++ engine publishes market quotes and account
balances into a shared-memory record. Python strategies read that record and
write trade commands back into it.

What the model covers:

- **Shared record** (`schema.dfy`, module `Schema`): the `MarketState`,
  `StrategyCommand` and `SharedMemoryLayout` structs as datatypes. The byte
  offsets are derived from natural alignment on System V AMD64. The layout
  has a little-endian encode/decode with a round trip and frame lemmas.
  `command_id += 1` is modelled as a 64-bit wrapping increment.
- **Rolling windows** (`rolling.dfy`, module `Rolling`): the bounded deque
  with an O(1) running sum that every trend strategy uses.
- **Trend strategy** (`strategies.dfy`, module `Strategies`):
  `TrendStrategy.decide`, with its warm-up, band-filtered entry, cross-under
  exit and FLAT/LONG flag. It is a class whose `Decide` method is proved
  against the pure step function `DecideStep`.
- **Live trend trader** (`live_trend.dfy`, module `LiveTrend`): one pass of
  the live polling loop. That covers the stale-data guard, the same-tick
  skip, the window updates and warm-up, the trailing stop, the gated BUY/SELL
  and the command write. Startup resume is modelled too.
- **Backtest engine** (`backtest_engine.dfy`, module `Backtest`): the per-row
  ledger with its proportional fee, the equity curve sampled every 1000
  ticks, the whole run driven by the strategy, and the report arithmetic.
- **Parameter sweep** (`optimize.dfy`, module `Optimize`):
  - the combination grid and the invalid-combination filter;
  - the rolling-mean signal series;
  - the change-index fill loop and the final PnL;
  - ordering the results by PnL.
- **Shadow execution engine** (`shadow_engine.dfy`, module `ShadowEngine`):
  `get_json_value`, plus one iteration of the C++ execution loop. The loop
  picks up commands by increasing id, fills marketable orders at the touch
  and applies the guarded wallet update.
- **Hybrid controller** (`main_strategy.dfy`, module `HybridStrategy`):
  - the startup cost-basis sync;
  - the policy observation;
  - the inventory cap and take-profit overrides of the policy's decision;
  - the execution guards and the weighted-average basis update.
- **RL environment** (`crypto_env.dfy`, module `CryptoEnv`): the
  `reset`/`step`/`_next_observation` bookkeeping, including the 20-price
  deque.
- **Recorder** (`recorder.dfy`, module `Recorder`): new-tick detection and
  the derived spread and OFI columns.
- **Manual reset tool** (`manual_reset.dfy`, module `ManualReset`): the
  confirm-and-dump loop of one-lot SELL commands.

Each source file that updates state in place becomes a class whose fields
are the source's variables. Its methods carry an `ensures` that ties the new
state to a pure step function of the old state and the inputs. The
properties are proved about those step functions. Prices, quantities and
cash are `real`. Timestamps and command ids are 64-bit unsigned integers.

## Model

| member | source | states |
|---|---|---|
| Common.Action.Code | hydra_brain/strategies.py:47-57 | HOLD, BUY and SELL are the codes 0, 1 and 2 and no other, the values written into the command's `action` field |
| Common.Ofi | hydra_brain/recorder.py:56-57 | with a positive total, `ofi * (bid_qty + ask_qty) == bid_qty - ask_qty`; otherwise 0; for non-negative quantities it lies in [-1, 1] |
| Rolling.Slide | hydra_brain/strategies.py:13-14 | the deque never exceeds its bound, ends with the new price, and grows by one until it is full |
| Rolling.SlideKeepsOrder | hydra_brain/strategies.py:13-14 | appending to a full deque drops exactly the oldest element; otherwise every element is kept in order |
| Rolling.PushSumCorrect | hydra_brain/strategies.py:25-34 | subtract-oldest-then-add keeps the running sum equal to the sum of the deque |
| Rolling.SlideAllIsLastN | hydra_brain/strategies.py:13-14 | a bounded deque fed a whole price history holds exactly the last `maxlen` prices |
| Rolling.WindowMean | hydra_brain/strategies.py:37-42 | the deque is full exactly when at least `window` prices were seen, and then `sum / window` is the mean of the last `window` prices |
| Schema.SharedMemory.constructor | shared_defs/schema.py:27-31 | the mapped segment holds one market block and one command block |
| Schema.NextId | shared_defs/schema.py:21 | `command_id += 1` on a c_uint64: one more, wrapping to 0 after 2^64 - 1 |
| Schema.BumpedIsSum | shared_defs/schema.py:21 | k increments advance the id by k modulo 2^64 |
| Schema.IdsAdvance | shared_defs/schema.py:21 | one more increment after k increments is k + 1 increments |
| Schema.AlignUp | shared_defs/schema.h:10-31 | rounding an offset up to an alignment gives the least aligned offset at or above it |
| Schema.StructAlign | shared_defs/schema.h:10-31 | a struct's alignment is positive and at least that of each of its fields |
| Schema.FieldsDisjoint | shared_defs/schema.h:10-31 | naturally aligned fields are aligned, come in declaration order and never overlap |
| Schema.FieldInside | shared_defs/schema.h:10-31 | every field ends within its struct's size |
| Schema.MarketLayout | shared_defs/schema.h:10-23 | the seven 8-byte market fields sit at offsets 0..48, `system_ready` at 56, and the struct is 64 bytes aligned to 8 |
| Schema.CommandLayout | shared_defs/schema.h:26-31 | `command_id` at 0, `action` at 8, `quantity` at 16, `price` at 24; 32 bytes aligned to 8 |
| Schema.ConcreteLayout | shared_defs/schema.h:34-37 | `command` starts at offset 64, the layout is 96 bytes, and that fits in `SHM_SIZE` = 4096 |
| Schema.DecodeEncodeLE | shared_defs/schema.py:3-25 | little-endian decoding of an n-byte encoding returns the value |
| Schema.DecodeEncodeField | shared_defs/schema.py:3-25 | a u64, f64 bit pattern, int or bool field decodes to what was encoded |
| Schema.WriteField | shared_defs/schema.py:27-31 | storing a field replaces exactly its bytes with its encoding and keeps every other byte |
| Schema.Encode | shared_defs/schema.py:27-31 | a layout is encoded as exactly 96 bytes |
| Schema.ReadAfterWrite | shared_defs/schema.py:27-31 | a field reads back the value written to it |
| Schema.ReadOtherAfterWrite | shared_defs/schema.py:27-31 | writing a field leaves every non-overlapping field's value unchanged |
| Schema.ReadAllWriteAll | shared_defs/schema.py:27-31 | writing a table of pairwise disjoint fields and reading them all back returns the written values |
| Schema.SlotsDisjoint | shared_defs/schema.h:10-31 | the fields of a struct placed at a base offset are pairwise disjoint and stay inside the struct |
| Schema.ConcreteSlots | shared_defs/schema.h:34-37 | the field table of the whole layout is the market table followed by the command table at offset 64 |
| Schema.LayoutSlotsDisjoint | shared_defs/schema.h:34-37 | the twelve fields of the layout are pairwise disjoint and lie within the 96 bytes |
| Schema.FromFieldsFields | shared_defs/schema.py:27-31 | the field list of a layout has the declared types and rebuilds the same layout |
| Schema.DecodeEncode | shared_defs/schema.py:27-31 | decoding the 96-byte encoding of a layout returns the layout |
| Schema.WriteOneField | shared_defs/schema.py:27-31 | writing one field of the shared record changes that field only |
| Strategies.Signal | hydra_brain/strategies.py:44-57 | BUY exactly when FLAT and `short > long * (1 + threshold)`; SELL exactly when LONG, not above the band and `short < long`; the position flips on a trade and only then |
| Strategies.DecideStep | hydra_brain/strategies.py:21-57 | both deques take the price; no trade while the long deque is not full; once it is full, the action and the new position are the signal rule applied to `shortSum / shortWindow` and `longSum / longWindow`; BUY only from FLAT to LONG, SELL only from LONG to FLAT, HOLD keeps the position |
| Strategies.DecideConsistent | hydra_brain/strategies.py:24-34 | after `decide` each running sum equals its deque's sum and each deque is within its window |
| Strategies.BandBoundaryHolds | hydra_brain/strategies.py:46 | a short mean exactly on the band boundary does not buy |
| Strategies.ExitIgnoresThreshold | hydra_brain/strategies.py:51-55 | the exit decision does not depend on the threshold: it is exactly `short < long` |
| Strategies.Run | hydra_brain/strategies.py:21-57 | feeding a price sequence yields one action per price and keeps the deques bounded |
| Strategies.RunConsistent | hydra_brain/strategies.py:24-34 | the sum invariant holds after any number of calls |
| Strategies.RunWindows | hydra_brain/strategies.py:13-34 | from a fresh strategy the deques are the last `window` prices and the sums are their sums |
| Strategies.RunPrefix | hydra_brain/strategies.py:21-57 | the actions for a prefix of the prices are the prefix of the actions: a decision never depends on later prices |
| Strategies.RunSignal | hydra_brain/strategies.py:21-57 | from a fresh strategy, once at least `longWindow` prices have been seen, the action for the latest price and the new position are the signal rule applied to the sum of the last `shortWindow` prices over `shortWindow` and the sum of the last `longWindow` prices over `longWindow` |
| Strategies.WarmupHolds | hydra_brain/strategies.py:36-38 | every call before the long window fills returns 0 |
| Strategies.TrendStrategy.constructor | hydra_brain/strategies.py:8-19 | defaults 10000 / 50000 / 0.0005, empty deques, zero sums, FLAT |
| Strategies.TrendStrategy.PushPrice | hydra_brain/strategies.py:24-34 | both windows slide by the price and the sums are updated in O(1), keeping the invariant |
| Strategies.TrendStrategy.PushShort | hydra_brain/strategies.py:24-28 | the short window update |
| Strategies.TrendStrategy.PushLong | hydra_brain/strategies.py:30-34 | the long window update |
| Strategies.TrendStrategy.Decide | hydra_brain/strategies.py:21-57 | the new state and action are `DecideStep` of the old state and price; `inventory` and `cash` do not enter |
| LiveTrend.Order | hydra_brain/live_trend.py:146-149 | a written command has the id bumped by one, the action code, quantity 0.001 and the given price |
| LiveTrend.Resume | hydra_brain/live_trend.py:60-75 | LONG with the stop based at the bid exactly when the balance is at least 0.001 BTC; otherwise FLAT with peak 0 |
| LiveTrend.LiveStep | hydra_brain/live_trend.py:82-200 | one pass keeps both deques within their windows |
| LiveTrend.GuardRule | hydra_brain/live_trend.py:83-95 | data older than 5000 ms, or an unchanged timestamp, is exactly the case that leaves the whole state alone |
| LiveTrend.OneOrderPerPass | hydra_brain/live_trend.py:143-200 | a pass writes at most one command, bumping the id once; the stop pass leaves `last_time`, every other acting pass records it |
| LiveTrend.PassMeans | hydra_brain/live_trend.py:105-128 | past the guards, the pass trades on the state after the push, and the running sums over the window sizes equal the sums of the pushed deques over the window sizes |
| LiveTrend.ResumeWindows | hydra_brain/live_trend.py:54-57 | from startup, after any run of passes the short and long deques are exactly the last 5000 and the last 30000 mid prices pushed by the passes that got past the guards, oldest first, and the running sums are their sums |
| LiveTrend.ResumeMeans | hydra_brain/live_trend.py:105-128 | from startup, a pass past the guards and the warm-up finds both windows full and trades on the running sums of the last 5000 and the last 30000 mid prices pushed (this pass's included), i.e. on the short and long moving averages of the mid price |
| LiveTrend.StopRule | hydra_brain/live_trend.py:133-154 | the trailing stop fires exactly when LONG and the peak is more than 50 above the mid; it sells 0.001 at ask - 10, goes FLAT and keeps `last_time` |
| LiveTrend.StopIgnoresBalances | hydra_brain/live_trend.py:133-154 | whether the stop fires does not depend on either balance: it can sell BTC the account does not hold |
| LiveTrend.BuyRule | hydra_brain/live_trend.py:160-178 | BUY exactly when past the guards, above the band, FLAT, cash > 15 and BTC < 0.005; priced at bid + 0.01 with the peak at the mid |
| LiveTrend.SellRule | hydra_brain/live_trend.py:180-198 | a signal SELL exactly when past the guards and stop, below the long mean, LONG and holding 0.001; priced at ask - 0.01 |
| LiveTrend.TradeKeepsInv | hydra_brain/live_trend.py:126-200 | the trading part keeps the invariant; the peak never falls while LONG and stays within 50 of the mid |
| LiveTrend.StepKeepsInv | hydra_brain/live_trend.py:105-136 | every pass keeps the sums equal to the window sums and the peak at 0 while FLAT |
| LiveTrend.LiveRun | hydra_brain/live_trend.py:82-200 | over many passes both deques stay within their windows and at most one order is written per pass |
| LiveTrend.PassId | hydra_brain/live_trend.py:146-149 | a pass moves the command id on by one exactly when it writes an order, and leaves it otherwise |
| LiveTrend.CommandIdsBumped | hydra_brain/live_trend.py:82-200 | over many passes the command id has been bumped exactly once per order written |
| LiveTrend.CommandIdsCount | hydra_brain/live_trend.py:149 | after many passes the id is the start id plus the orders written, modulo 2^64 |
| LiveTrend.LiveTrader.constructor | hydra_brain/live_trend.py:53-75 | the loop state after the startup sync is `Resume` of the first snapshot |
| LiveTrend.LiveTrader.PushPrice | hydra_brain/live_trend.py:105-116 | the O(1) window updates, keeping the invariant |
| LiveTrend.LiveTrader.PushShort | hydra_brain/live_trend.py:107-110 | the short window update |
| LiveTrend.LiveTrader.PushLong | hydra_brain/live_trend.py:113-116 | the long window update |
| LiveTrend.LiveTrader.Post | hydra_brain/live_trend.py:146-149 | the four field writes of a command amount to `Order`, and the market block is untouched |
| LiveTrend.LiveTrader.Step | hydra_brain/live_trend.py:82-124 | one loop iteration is `LiveStep` of the old state, the snapshot and the clock |
| LiveTrend.LiveTrader.Act | hydra_brain/live_trend.py:126-200 | steps E to 8 are `Trade` of the state after the window updates |
| Backtest.Execute | hydra_brain/backtest_engine.py:45-60 | the wallet is unchanged or moves by exactly one lot in the action's direction; equity at the trade price drops by exactly the fee when a trade happens |
| Backtest.BuyRule | hydra_brain/backtest_engine.py:46-51 | BUY happens iff `cash >= cost + fee`, and then cash falls by `price * 0.001 * (1 + fee_rate)` and BTC rises by 0.001 |
| Backtest.SellRule | hydra_brain/backtest_engine.py:55-60 | SELL happens iff `btc >= 0.001`, and then cash rises by `price * 0.001 * (1 - fee_rate)` and BTC falls by 0.001 |
| Backtest.ExecuteNonNegative | hydra_brain/backtest_engine.py:45-60 | a non-negative wallet stays non-negative |
| Backtest.Counted | hydra_brain/backtest_engine.py:34-40 | the tick count goes up by one; an equity point, taken before the action, is appended exactly when the count is a multiple of 1000 |
| Backtest.Row | hydra_brain/backtest_engine.py:33-60 | one row keeps the curve at `total_ticks / 1000` entries |
| Backtest.Replay | hydra_brain/backtest_engine.py:28-60 | the tick count goes up by the number of rows |
| Backtest.CurveLength | hydra_brain/backtest_engine.py:34-40 | from a fresh engine the curve always has `total_ticks / 1000` entries |
| Backtest.ReplayNonNegative | hydra_brain/backtest_engine.py:45-60 | with non-negative prices and a fee rate in [0, 1], cash and BTC never go negative |
| Backtest.ReplayIdle | hydra_brain/backtest_engine.py:45-60 | actions other than 1 and 2 never change the wallet |
| Backtest.RejectedBuyStillFlips | hydra_brain/backtest_engine.py:43-51 | a BUY the engine cannot afford leaves the wallet alone, yet the strategy has already gone LONG |
| Backtest.ReportFigures | hydra_brain/backtest_engine.py:69-72 | final equity is `cash + btc * final_price`, `pnl = equity - initial_cash`, `ret * initial_cash = pnl * 100`; no report when the initial cash is 0 |
| Backtest.BacktestEngine.constructor | hydra_brain/backtest_engine.py:7-17 | defaults 10000 and 0.001; fresh ledger; `trades` empty |
| Backtest.BacktestEngine.ProcessRow | hydra_brain/backtest_engine.py:33-60 | one row: the tick, the strategy's decision and the execution, equal to `Row`; `trades` unchanged |
| Backtest.BacktestEngine.CountTick | hydra_brain/backtest_engine.py:34-40 | the tick counter and the sampled equity curve |
| Backtest.BacktestEngine.ExecuteAction | hydra_brain/backtest_engine.py:45-60 | the execution block is `Execute` on the wallet |
| Backtest.BacktestEngine.Run | hydra_brain/backtest_engine.py:19-67 | the strategy ends in `Strategies.Run` of the prices, the ledger in `Replay` of its actions, and the report is taken at the last price; on an empty series the report is `None`, where the source raises (see Left out) |
| Backtest.BacktestEngine.RunRows | hydra_brain/backtest_engine.py:28-63 | the row loop, with the same two postconditions |
| Backtest.BacktestEngine.GenerateReport | hydra_brain/backtest_engine.py:69-72 | the report figures of the current wallet |
| Optimize.Product | hydra_brain/optimize.py:36 | a combination is produced exactly when each component is in its list |
| Optimize.RollingMean | hydra_brain/optimize.py:55-56 | the rolling mean is defined exactly from index `window - 1` on |
| Optimize.BatchMeanIsWindowMean | hydra_brain/optimize.py:55-56 | the batch rolling mean at i is the mean of the streaming deque after i + 1 prices |
| Optimize.SignalAt | hydra_brain/optimize.py:60-61 | -1 exactly when both means exist and `short < long`; 1 exactly when not and `short > long * (1 + thresh)`; otherwise 0 |
| Optimize.Signals | hydra_brain/optimize.py:55-61 | one signal per price, in {-1, 0, 1}, and 0 wherever a rolling mean is undefined |
| Optimize.SignalRule | hydra_brain/optimize.py:55-61 | once both windows are full, the signal at i follows the two rolling means |
| Optimize.ChangesUpTo | hydra_brain/optimize.py:73-74 | the change indices are exactly the indices whose signal differs from the previous one (0 before index 0), in increasing order |
| Optimize.FillStep | hydra_brain/optimize.py:80-93 | BUY only on signal 1 from pos 0 with `cash > price * 0.001`; SELL only on -1 from pos 1; the count goes up exactly on a flip; the invariant `btc == 0.001 * pos` is kept |
| Optimize.BuyCanOverdraw | hydra_brain/optimize.py:80-84 | the affordability test ignores the fee, so a BUY can leave cash below zero |
| Optimize.Fill | hydra_brain/optimize.py:76-93 | the fill loop keeps the invariant and makes at most one trade per change index |
| Optimize.FillBalanced | hydra_brain/optimize.py:65-93 | from the starting state, pos is 0 or 1, `pos == trade_count % 2` and `btc == 0.001 * pos` |
| Optimize.Evaluate | hydra_brain/optimize.py:47-97 | one result per combination, carrying its parameters; none for an empty price series |
| Optimize.EvaluatePnl | hydra_brain/optimize.py:95-97 | the PnL is the final cash, plus one lot at the last price when the trade count is odd, minus 10000 |
| Optimize.BalancedPnl | hydra_brain/optimize.py:96-97 | `cash + btc * last - 10000` in terms of the trade count |
| Optimize.ValidCombos | hydra_brain/optimize.py:39-42 | the combinations kept by the `short >= long` skip: each kept one has `short < long` and comes from the grid, and every grid combination with `short < long` is kept |
| Optimize.Collect | hydra_brain/optimize.py:39-109 | absent exactly when the series is empty and some combination is valid; otherwise row `i` is the backtest result of the `i`-th valid combination, so there is one row per valid combination, each with `short < long` |
| Optimize.CollectCovers | hydra_brain/optimize.py:39-109 | every grid combination with `short < long` has its backtest result among the collected rows |
| Optimize.CollectOnly | hydra_brain/optimize.py:39-109 | every collected row is the backtest result of some grid combination with `short < long` |
| Optimize.SortByPnl | hydra_brain/optimize.py:112 | sorted by non-increasing PnL and a permutation of the results |
| Optimize.SweepRows | hydra_brain/optimize.py:33-112 | on a non-empty series the sweep's rows are a permutation of the collected rows, sorted by PnL descending; every valid combination's result is a row and every row is the result of a valid combination |
| Optimize.FillLoop | hydra_brain/optimize.py:65-93 | the imperative fill loop computes `Fill` |
| Optimize.EvaluateCombo | hydra_brain/optimize.py:47-97 | one combination's backtest computes `Evaluate` |
| Optimize.RunSweep | hydra_brain/optimize.py:33-112 | the loop over combinations with the skip and the final sort computes `Sweep` |
| ShadowEngine.Find | hydra_core/src/main.cpp:46-49 | the first occurrence of the pattern at or after the start, or none |
| ShadowEngine.ValueEnd | hydra_core/src/main.cpp:49 | the value stops at the next quote, or at the end of the text when there is none |
| ShadowEngine.GetJsonValue | hydra_core/src/main.cpp:44-51 | 0.0 when `"key":"` does not occur; otherwise the parse of the text up to the next quote, with 0.0 on a parse failure |
| ShadowEngine.MemberRoundTrip | hydra_core/src/main.cpp:44-51 | the value written as `"key":"text"` at the head of a message is what is parsed back |
| ShadowEngine.Pickup | hydra_core/src/main.cpp:75-85 | a command is taken exactly when its id exceeds the last one seen, replacing any pending order; otherwise nothing changes |
| ShadowEngine.FillPrice | hydra_core/src/main.cpp:87-100 | a BUY fills, at the ask only, exactly when the price is 0 or at least the ask; a SELL at the bid exactly when 0 or at most the bid |
| ShadowEngine.Settle | hydra_core/src/main.cpp:102-116 | a filled BUY moves the wallet only when `usdt >= cost + fee`; a filled SELL only when `btc >= qty` |
| ShadowEngine.Poll | hydra_core/src/main.cpp:74-118 | one iteration's id bookkeeping is the pickup's |
| ShadowEngine.PollPending | hydra_core/src/main.cpp:87-116 | an unfilled order stays pending; a fill settles the wallet and clears the action, even when the wallet guard refused it |
| ShadowEngine.StaleCommandIgnored | hydra_core/src/main.cpp:75 | a command whose id is not above the last seen has no effect, whatever its content |
| ShadowEngine.PollNonNegative | hydra_core/src/main.cpp:74-118 | with non-negative quotes and quantities, a non-negative wallet stays non-negative |
| ShadowEngine.SettleNonNegative | hydra_core/src/main.cpp:102-114 | the guarded wallet update keeps both balances non-negative |
| ShadowEngine.PollAll | hydra_core/src/main.cpp:74-119 | the last command id never decreases |
| ShadowEngine.PollAllNonNegative | hydra_core/src/main.cpp:34-37 | from the starting wallet, any run of iterations keeps USDT and BTC non-negative |
| ShadowEngine.VirtualWallet.constructor | hydra_core/src/main.cpp:34-37 | 10000 USDT and no BTC |
| ShadowEngine.ExecutionLoop.constructor | hydra_core/src/main.cpp:66-72 | the loop starts from the record's current id with nothing pending |
| ShadowEngine.ExecutionLoop.PollOnce | hydra_core/src/main.cpp:74-118 | one iteration is `Poll` of the loop state, the quotes and the command |
| ShadowEngine.ExecutionLoop.SettleFill | hydra_core/src/main.cpp:102-114 | the wallet update is `Settle` |
| HybridStrategy.StartupBasis | hydra_brain/main_strategy.py:54-64 | the basis is the mid price when BTC is held, else 0 |
| HybridStrategy.Observation | hydra_brain/main_strategy.py:79-82 | the observation is `[0, ofi, real_btc, 0]` with the recorder's OFI |
| HybridStrategy.FinalAction | hydra_brain/main_strategy.py:89-110 | the take-profit rule forces SELL over any decision; BUY exactly for decision 1 below the inventory cap; SELL for decision 3; HOLD otherwise |
| HybridStrategy.BasisBetween | hydra_brain/main_strategy.py:121-122 | for a non-negative holding the new basis lies between the old basis and the mid price |
| HybridStrategy.Order | hydra_brain/main_strategy.py:116-118 | a write sets action and quantity 0.001, bumps the id by one and keeps the old price field |
| HybridStrategy.TickRule | hydra_brain/main_strategy.py:70-71 | an unchanged timestamp changes nothing; every other non-failing pass records the timestamp |
| HybridStrategy.ExecutionGuards | hydra_brain/main_strategy.py:113-132 | BUY written exactly on a BUY with more than 15 USD, SELL exactly on a SELL with at least 0.001 BTC; each write bumps the id once; otherwise the command is untouched |
| HybridStrategy.BasisRule | hydra_brain/main_strategy.py:113-132 | only a BUY moves the basis; after a BUY, basis times (holding + 0.001) equals holding times the old basis plus 0.001 times the mid price (the weighted average), and for a non-negative holding the new basis lies between the old basis and the mid price |
| HybridStrategy.StartupNoTakeProfit | hydra_brain/main_strategy.py:54-64 | right after the startup sync, on the same quotes, the take-profit rule cannot fire |
| HybridStrategy.HybridController.constructor | hydra_brain/main_strategy.py:43-64 | the controller starts with `last_time` 0 and the startup basis |
| HybridStrategy.HybridController.Step | hydra_brain/main_strategy.py:69-134 | one loop iteration is `HybridStep` of the old state, the snapshot and the decision |
| HybridStrategy.HybridController.ExecuteOrder | hydra_brain/main_strategy.py:112-134 | the execution block and timestamp update |
| HybridStrategy.HybridController.WriteCommand | hydra_brain/main_strategy.py:116-118 | the field writes amount to `Order` |
| HybridStrategy.HybridController.Decide | hydra_brain/main_strategy.py:88-110 | the rule code computes `FinalAction` |
| CryptoEnv.MaxSteps | hydra_brain/envs/crypto_env.py:12 | the whole table for 0, else the smaller of the table length and the request |
| CryptoEnv.Observe | hydra_brain/envs/crypto_env.py:40-59 | the cursor is clamped to the last row; the deque gets the row's price, keeps at most 20 and ends with it; the observation carries the flow proxy and the inventory; no row on an empty table |
| CryptoEnv.StepState | hydra_brain/envs/crypto_env.py:61-91 | a step keeps the cursor invariant and the deque bound |
| CryptoEnv.ResetRule | hydra_brain/envs/crypto_env.py:32-38 | after reset: cursor 0, no inventory, cash 10000, and only the first row's price in the deque |
| CryptoEnv.StepRule | hydra_brain/envs/crypto_env.py:61-79 | the cursor moves by one; the step fails past the table; `terminated` iff the cursor reaches `max_steps - 1`; the inventory moves by the action's lot; cash never changes |
| CryptoEnv.InventoryRule | hydra_brain/envs/crypto_env.py:74-79 | action 1 adds 0.001, action 3 subtracts 0.001 with no floor, anything else leaves the inventory |
| CryptoEnv.Run | hydra_brain/envs/crypto_env.py:61-91 | an episode keeps the invariant |
| CryptoEnv.EpisodeRule | hydra_brain/envs/crypto_env.py:32-91 | after reset, an episode succeeds iff the table has more rows than actions; the cursor is the action count, cash is 10000, the inventory is 0.001 per BUY minus 0.001 per SELL, and the deque holds the last 20 prices visited |
| CryptoEnv.EpisodeWindow | hydra_brain/envs/crypto_env.py:32-91 | after reset, an episode succeeds iff the table has more rows than actions, and then every cursor, cash, inventory and deque fact of `EpisodeRule` holds step by step |
| CryptoEnv.MarketMakingEnv.constructor | hydra_brain/envs/crypto_env.py:7-30 | the episode length rule and the initial state |
| CryptoEnv.MarketMakingEnv.Reset | hydra_brain/envs/crypto_env.py:32-38 | `reset` is `ResetState` of the table |
| CryptoEnv.MarketMakingEnv.NextObservation | hydra_brain/envs/crypto_env.py:40-59 | the append-then-pop deque update is `Observe` |
| CryptoEnv.MarketMakingEnv.Step | hydra_brain/envs/crypto_env.py:61-91 | `step` is `StepState` |
| Recorder.Row.Cells | hydra_brain/recorder.py:34 | a row has one cell per header column |
| Recorder.ColumnOrder | hydra_brain/recorder.py:34 | each cell lies under its header name, in the fixed order `local_time, bid_price, bid_qty, ask_price, ask_qty, spread, ofi` |
| Recorder.MakeRow | hydra_brain/recorder.py:52-67 | the row copies the quotes, with `spread = ask - bid` and the OFI rule |
| Recorder.PollRule | hydra_brain/recorder.py:50-70 | a row is written exactly for a timestamp that is new and non-zero; it becomes `last_time` and the count goes up by one, and otherwise nothing changes |
| Recorder.PollGood | hydra_brain/recorder.py:46-70 | one poll keeps: count equal to rows written, last row's time is `last_time`, no zero time, no two neighbouring rows with the same time |
| Recorder.RecordGood | hydra_brain/recorder.py:46-70 | any run of polls keeps that invariant and writes at most one row per poll |
| Recorder.TickRecorder.constructor | hydra_brain/recorder.py:41-42 | `last_time` 0, `tick_count` 0, no rows |
| Recorder.TickRecorder.PollOnce | hydra_brain/recorder.py:47-70 | one poll is `Poll` of the counters and the snapshot |
| ManualReset.Lower | hydra_brain/manual_reset.py:40 | lower-casing keeps the length and maps exactly the letters `A`..`Z` to `a`..`z` |
| ManualReset.LotsIsFloor | hydra_brain/manual_reset.py:43-48 | with exact arithmetic that count is `floor(btc * 1000)` and the remainder is below one lot |
| ManualReset.ConfirmRule | hydra_brain/manual_reset.py:40-41 | the lower-cased answer is `"y"` exactly for `y` and `Y` |
| ManualReset.Sent | hydra_brain/manual_reset.py:44-46 | after at least one write the command is SELL 0.001, with the price field untouched |
| ManualReset.SentIds | hydra_brain/manual_reset.py:46 | n writes advance the id by n modulo 2^64 |
| ManualReset.SellsRule | hydra_brain/manual_reset.py:37-48 | no command below one lot or without `y`; otherwise `floor(btc * 1000)` SELL commands, each bumping the id once |
| ManualReset.Dump | hydra_brain/manual_reset.py:30-49 | the loop writes that many commands from a balance read once, the local balance ends below one lot, and the market block is never touched |

## Left out

- OS and I/O plumbing: shared-memory attach and retry loops, `mmap`, `time.sleep`, `print`, CSV and number formatting, parquet and pandas loading, and matplotlib. Snapshots, wall-clock time and price series are inputs.
- The WebSocket/TLS client of the C++ engine and its detached threads, including `balance_sync_loop`. The model covers one sequential iteration of the execution loop. Each pass reads the shared record once, as a single snapshot. Interleaving with another process between field reads is not modelled.
- IEEE-754 arithmetic: every price and quantity is an exact `real`. Rounding drift in the running sums and float-dependent loop counts (repeated subtraction of 0.001) are not captured. The byte layout stores f64 values as opaque 64-bit patterns.
- The recurrent PPO policy and the whole training script: the policy's action is an input.
- The random status print in the hybrid controller.
- The volatility feature and the reward of the RL environment (`np.std`, square roots), and the float32 cast of the observation.
- The live trader's and the hybrid controller's startup waits (`while bid_price == 0`): their constructors require a non-zero bid instead.
- Strategies.TrendStrategy.constructor: requires positive window sizes. With a window of 0 the source's `deque(maxlen=0)` stays empty while its length equals the window, so the very first `decide` reads `short_deque[0]` of an empty deque and raises IndexError (hydra_brain/strategies.py:25-26); that failure is not modelled.
- Optimize.RollingMean: windows are positive (`Window` type), as all the configured sizes are. Its value is stated by `Optimize.BatchMeanIsWindowMean`, not by its own ensures.
- Optimize.SortByPnl: the order of results with equal PnL (Python's sort is stable) is not proved. The sort is modelled as a function on a sequence, not as an in-place list sort.
- The batch sweep and the streaming backtest are not proved equivalent. Their affordability tests differ (`cash > cost` against `cash >= cost + fee`). `Optimize.BatchMeanIsWindowMean` links only their window means.
- Backtest.BacktestEngine.Run: on an empty price series the source reaches `df_chunk.iloc[-1]` with no last row (`df_chunk` unbound, or an empty frame) and raises (hydra_brain/backtest_engine.py:66); the model returns `None` instead of modelling the exception.
- ShadowEngine.GetJsonValue: `std::stod` is a parameter, a partial parser returning an optional number. Its acceptance of a numeric prefix is not modelled.
- HybridStrategy.HybridController.Step: the basis division by `real_btc + 0.001` is modelled as the outcome `DivisionError` when the divisor is 0. There the source raises `ZeroDivisionError` after the command is written.
- ManualReset.Lower: the lower-casing is ASCII only, where Python's `str.lower` covers all of Unicode.
- `get_json_value`'s callers in the market-data handler of the C++ engine are part of the networking code above and are not modelled.
