# A streaming trading simulator's core, modelled in Dafny

The repository is a small streaming trading pipeline. Ticks go out on the
`price_updates` channel. A mean-reversion strategy turns them into BUY/SELL/HOLD
signals on `trade_signals`. A mock executor fills one-unit trades from
`aggregated_signals` at the latest price it has seen, publishes its portfolio on
`executor_pnl` and appends a record to the durable `trade_history` list. A
dashboard keeps bounded views of all three channels and a Sharpe ratio. Separately,
a batch helper computes a moving-average crossover over a column of closes.

This project models the state each of those handlers keeps and the state change
that one decoded message makes. It proves what the handlers guarantee:
- the portfolio's guards and effects;
- the drawdown as the running trough of realised PnL;
- the bounded buffers, which hold exactly the newest arrivals;
- the mean-reversion thresholds;
- the Sharpe ratio's zero cases and its sign;
- the crossover's column definitions and its behaviour on rising prices.

Modules, one per file:

- `Wrappers` (wrappers.dfy): `Option`, Python's `None` / a missing key.
- `Messages` (messages.dfy): decoded ticks and signals.
- `Windows` (windows.dfy): bounded buffers (`list.append` + `pop(0)`,
  `deque(maxlen=n)` with `append` or `appendleft`, `LTRIM`/`LRANGE -n -1`), each
  specified against the whole arrival sequence.
- `Stats` (stats.dfy): sum, mean and population variance over reals.
- `TradeExecutor` (executor.dfy): the portfolio as a pure step function plus an
  `Executor` class whose fields are the process globals.
- `MeanReversion` (meanrev.dfy): the per-symbol windows as a `map<string, seq<real>>`
  field of an `Evaluator` class.
- `Dashboard` (dashboard.dfy): the views as fields of a `View` class and the Sharpe
  ratio as a function with an abstract square root.
- `SmaCrossover` (sma.dfy): the crossover as a pure function over a sequence.

Two points about the executor's code that the model keeps:

- The executor updates the drawdown, publishes its state and appends to
  `trade_history` for every signal that arrives once a price is known. That
  includes HOLD, unknown words and signals rejected by the cash or position
  guard (services/trade-executor-mock/main.py:84-93 sit after the `if/elif/else`).
- The executor's latest price is one value shared by all symbols, not a price per
  symbol (services/trade-executor-mock/main.py:25, 49).

Ghost state stands in for the outside world: the states the executor published, the
`trade_history` list, and every close or message a view was fed. The class
invariants (`Valid`) tie each bounded buffer to that arrival history.

## Model

| member | source | states |
|---|---|---|
| Messages.ActionName | services/strategies/meanrev/main.py:42-47 | a decision travels as one of the words BUY, SELL, HOLD |
| Messages.ActionNameInjective | services/strategies/meanrev/main.py:42-47 | distinct decisions travel as distinct words |
| TradeExecutor.ActionWordsSelectBranch | services/trade-executor-mock/main.py:65-80 | the word of a BUY is accepted iff the cash covers the price, the word of a SELL iff a unit is held against an entry price, and the word of a HOLD never |
| Windows.Append | services/strategies/meanrev/main.py:34-37 | `list.append` then `pop(0)` past n, also `deque(maxlen=50).append` at services/dashboard/main.py:169. It has no contract of its own. Its property, that it keeps exactly the newest n arrivals, is stated by Windows.AppendKeepsNewest |
| Windows.AppendLeft | services/dashboard/main.py:165 | `appendleft` on a `deque(maxlen=10)`, also at services/dashboard/main.py:171. It has no contract of its own. Its property, that it keeps the newest n arrivals newest first, is stated by Windows.AppendLeftKeepsNewest |
| Windows.KeepLast | services/trade-executor-mock/main.py:93 | `LTRIM key -n -1` leaves min(n, length) entries, and they are the suffix of the list |
| Windows.Reverse | services/dashboard/main.py:165 | a newest-first view has the same length as the arrivals, and holds them in the opposite order |
| Windows.AppendKeepsNewest | services/strategies/meanrev/main.py:34-37 | appending to a buffer of the newest n arrivals and evicting the oldest on overflow leaves the newest n of the longer arrival sequence |
| Windows.TrimAfterEachAppend | services/trade-executor-mock/main.py:87-93 | trimming the durable list after every append gives the same list as trimming once at the end |
| Windows.AppendLeftKeepsNewest | services/dashboard/main.py:171 | `appendleft` on a `deque(maxlen=n)` that held the newest n arrivals newest first still does after one more arrival |
| Stats.Variance | services/dashboard/main.py:183 | the population variance is never negative |
| Stats.VarianceZeroIffConstant | services/dashboard/main.py:182-184 | the population variance is zero exactly when all samples are equal (both directions) |
| Stats.MeanOfConcatBelow | services/strategy-engine/core.py:5-6 | putting a block with a lower mean in front of a sample lowers its mean |
| Stats.MeanAtLeast | services/strategy-engine/core.py:5-6 | a mean is at least any lower bound of its samples |
| Stats.MeanBelow | services/strategy-engine/core.py:5-6 | a mean is below any strict upper bound of its samples |
| TradeExecutor.Initial | services/trade-executor-mock/main.py:16-23 | the start state: 100000 in cash, nothing held, no entry price, zero PnL and drawdown, empty history |
| TradeExecutor.ProcessSignal | services/trade-executor-mock/main.py:65-84 | a processed signal keeps position ≥ 0, and cash ≥ 0 when prices are non-negative. The drawdown never rises, stays ≤ 0 and ≤ pnl, and equals min(old drawdown, min(pnl, 0)). History grows by exactly the record iff a guard accepted. A rejected signal changes nothing but the drawdown |
| TradeExecutor.BuyEffect | services/trade-executor-mock/main.py:65-70 | an affordable BUY adds one unit, pays the price, overwrites the entry price and logs one trade |
| TradeExecutor.SellEffect | services/trade-executor-mock/main.py:72-79 | a SELL with a unit and an entry price removes one unit, adds the price to cash, realises price − entry and clears the entry price |
| TradeExecutor.SecondSellAfterTwoBuysRejected | services/trade-executor-mock/main.py:72-77 | after two BUYs and one SELL a unit is still held, yet the next SELL is rejected because the entry price was cleared |
| TradeExecutor.Worst | services/trade-executor-mock/main.py:84 | the trough of published PnLs is ≤ 0, ≤ every published PnL, and is either 0 or one of those PnLs |
| TradeExecutor.DrawdownIsWorstPublishedPnl | services/trade-executor-mock/main.py:84-86 | if the drawdown is the trough of the published PnLs, it still is after the next step is published |
| TradeExecutor.RoundTripExample | services/trade-executor-mock/main.py:65-84 | BUY at 100 from the start leaves 99900 cash and one unit at 100. SELL at 110 then realises 10, and the drawdown stays 0 |
| TradeExecutor.DrawdownSurvivesRecovery | services/trade-executor-mock/main.py:84 | a PnL of −50 followed by a recovery to −10 leaves the drawdown at −50 |
| TradeExecutor.Executor.constructor | services/trade-executor-mock/main.py:16-25 | process start: the initial portfolio, no latest price, nothing published, the durable list as found |
| TradeExecutor.Executor.OnPrice | services/trade-executor-mock/main.py:47-51 | a tick changes only the latest price, which becomes the tick's close, or `None` without one |
| TradeExecutor.Executor.OnSignal | services/trade-executor-mock/main.py:53-93 | with no price yet nothing changes. Otherwise the portfolio takes exactly the ProcessSignal step, that state is published, and one record is appended to the durable list, which keeps its newest 100 entries |
| TradeExecutor.Executor.FillAtLatestPrice | services/trade-executor-mock/main.py:58-93 | once a price is known: the step, one publish and one durable append with trim, with the invariant kept |
| TradeExecutor.Executor.Step | services/trade-executor-mock/main.py:65-84 | the in-place branch and drawdown update produce exactly ProcessSignal of the previous state, and the published and durable state is untouched |
| TradeExecutor.Executor.Publish | services/trade-executor-mock/main.py:86-93 | the state is published and the record is appended then trimmed. Afterwards the drawdown is the trough of all published PnLs, and the durable list is the last 100 of the stored entries plus every appended record |
| TradeExecutor.Executor.Handle | services/trade-executor-mock/main.py:39-98 | a non-message event or an undecodable payload changes nothing. A tick sets only the latest price. A signal leaves the latest price alone; without a price it changes nothing, otherwise it makes the ProcessSignal step, one publish, and one record appended to the durable list, which keeps its newest 100 entries |
| MeanReversion.Classify | services/strategies/meanrev/main.py:42-47 | the classification rule. It has no contract of its own. Its bands, with both comparisons strict and a price on a threshold counted as HOLD, are stated by MeanReversion.ClassifyBands |
| MeanReversion.ClassifyBands | services/strategies/meanrev/main.py:42-47 | for a non-negative mean: BUY iff price < 0.98·mean, SELL iff price > 1.02·mean, HOLD iff in between inclusive; a price on a threshold is HOLD |
| MeanReversion.Decide | services/strategies/meanrev/main.py:39-47 | a decision exists iff the window holds at least 20 closes, and it classifies the price against sum/length of the window |
| MeanReversion.SignalFor | services/strategies/meanrev/main.py:49-54 | every signal names strategy "meanrev" with confidence 1.0, plus the symbol and decision |
| MeanReversion.MeanAfterCopies | services/strategies/meanrev/main.py:34-40 | a tick x arriving on a full window of copies of p evicts one p, and the mean becomes (19p + x)/20 |
| MeanReversion.ClassifyAfterFlatWindow | services/strategies/meanrev/main.py:39-47 | on a full window of a positive price P, a tick at 0.97P is BUY, at 1.03P is SELL and at P is HOLD |
| MeanReversion.Evaluator.constructor | services/strategies/meanrev/main.py:15 | no windows at start |
| MeanReversion.Evaluator.OnMessage | services/strategies/meanrev/main.py:26-59 | a tick missing `s` or `c` changes nothing and emits nothing. Otherwise the close joins its symbol's window, which is the newest ≤ 20 closes of that symbol. Other symbols' windows are unchanged. A signal is emitted iff the symbol has delivered ≥ 20 closes, and it is the classification of the close against the mean of the window, which includes the close |
| MeanReversion.Evaluator.Slide | services/strategies/meanrev/main.py:34-37 | append then pop(0) past 20 leaves the window equal to the newest 20 closes seen for the symbol, and touches no other symbol |
| Dashboard.ParseReturns | services/dashboard/main.py:179-180 | parsing succeeds iff no entry fails to parse. On success, `None` and empty entries are dropped, and the result has one value per parsed entry, each taken from the input |
| Dashboard.ParseReturnsAppend | services/dashboard/main.py:179-180 | the parse of a concatenation is the concatenation of the parses of both halves, in order, and fails iff either half fails |
| Dashboard.ParseReturnsSingle | services/dashboard/main.py:179-180 | a single `None` or empty entry parses to no returns, a number to itself, and rejected text fails the parse |
| Dashboard.SharpeRatio | services/dashboard/main.py:181-186 | the Sharpe formula, mean over population deviation. It has no contract of its own. It is 0 with fewer than two returns or a zero deviation (Dashboard.SharpeZeroCases), and otherwise mean/std with the sign of the mean (Dashboard.SharpeOfSpreadReturns) |
| Dashboard.SharpeZeroCases | services/dashboard/main.py:181-186 | the ratio is 0 with fewer than two returns or when all returns are equal |
| Dashboard.SharpeOfSpreadReturns | services/dashboard/main.py:182-184 | with at least two unequal returns the deviation is positive and the ratio is mean/std, with the sign of the mean (both directions) |
| Dashboard.View.constructor | services/dashboard/main.py:19-24 | empty logs, no executor state, empty history, ratio 0, no series |
| Dashboard.View.OnPrice | services/dashboard/main.py:164-169 | the tick goes to the front of the newest-first price log (at most 10). Its close extends its symbol's series (at most 50, oldest first, created on first use) only when the symbol is truthy and the close present. No other view changes |
| Dashboard.View.AddClose | services/dashboard/main.py:169 | a series becomes the newest 50 closes of its symbol, and only that series changes |
| Dashboard.View.OnSignal | services/dashboard/main.py:170-171 | the signal goes to the front of the newest-first signal log (at most 10); no other view changes |
| Dashboard.View.OnPnl | services/dashboard/main.py:172-186 | the executor state is replaced whole, and the history becomes the last ≤ 10 durable entries, oldest first. The ratio is recomputed from the whole returns list, but stays as it was when an entry fails to parse |
| Dashboard.View.Handle | services/dashboard/main.py:160-188 | a non-message event or an undecodable payload leaves every view unchanged. A tick, a signal or an executor update changes exactly the views that OnPrice, OnSignal or OnPnl change, in the same way, and no other |
| Dashboard.View.Read | services/dashboard/main.py:154 | the page reads a copy of every view, within the bounds 10, 10, 10 and 50 |
| SmaCrossover.SimpleMovingAvg | services/strategy-engine/core.py:3-8 | same rows and closes. A w-window mean is defined exactly from row w−1 on (never for w = 0) and there equals the mean of the last w closes. Signal ∈ {0,1}, and it is 1 iff both means are defined and short > long |
| SmaCrossover.ShortMeanAboveLongMean | services/strategy-engine/core.py:5-6 | over strictly increasing closes with short < long, the short mean is above the long mean wherever both are defined |
| SmaCrossover.IncreasingClosesSignal | services/strategy-engine/core.py:5-7 | over strictly increasing closes with 1 ≤ short < long, the signal is 1 on every row from long−1 on and 0 before |
| SmaCrossover.TenRisingCloses | services/strategy-engine/test_main.py:4-11 | closes 100..109 with windows 3 and 5: every signal is 0 or 1, the last one is 1, rows 0–3 are 0 and rows 4–9 are 1 |

## Left out

- Redis is not modelled. That covers the connection, `ping`, `subscribe`/`listen`, `publish`, `rpush`/`ltrim`/`lrange`, and the async loops. Published states and the durable lists are ghost sequences. The durable lists the dashboard reads are method parameters.
- JSON decoding is left out, along with the `'`→`"` rewrite. Messages arrive already decoded, with a separate case for a payload that fails to decode. Where the executor and the dashboard read a key with `dict.get`, a missing key and a JSON `null` both read as `None`, as they do in Python.
- Payloads that decode to a non-object, or whose fields have unexpected types (a string close, say), are not modelled.
- MeanReversion.Evaluator.OnMessage: a tick whose `s` is present but `null`, a number or a boolean is not modelled. The evaluator indexes `bar['s']` directly, so such a tick gets a window under that key (`None` for `null`), and once the window is full a signal with that symbol is published. The model treats such an `s` like a missing one: nothing changes and nothing is emitted. An array or object `s` cannot be hashed, so `price_window[symbol]` raises and the handler changes nothing, which the model does match.
- Dashboard.View.OnSignal: the dashboard logs any decoded payload that arrives on `trade_signals`, including one with a missing field (no `confidence`, say) or a `signal` word other than BUY, SELL and HOLD. The model's signal message carries only a complete signal with one of the three decisions, so such payloads are not modelled.
- The mean-reversion evaluator: a tick whose `c` is present but `null` is appended before the arithmetic fails. That poisoned window is not modelled.
- The dashboard's `trade_history` entries arrive already decoded. The path where `json.loads(item)` fails after `latest_pnl` was replaced is not modelled.
- The price log holds a tick's `s` and `c` only, not the whole payload.
- Floating point is replaced by exact reals. This covers prices, cash, PnL, `sum/len`, `np.mean` and `np.std`.
- The square root is an abstract function on non-negative reals.
- `float` parsing is abstracted into parsed, blank, missing and rejected entries.
- The processing time, `datetime.utcnow().isoformat()`, is an opaque `now` parameter.
- Logging and `print` are left out.
- pandas is replaced by a sequence of reals. Closes are reals. The window lengths are natural numbers, so negative windows, which pandas rejects, cannot occur. NaN closes are not modelled.
- `DataFrame.copy` is implicit, because the function returns new rows.
- The market-data mock is random price generation in a sleep loop.
- The crossover HTTP endpoint (services/strategy-engine/main.py) cleans up inf/NaN and serialises the result.
- The dashboard's HTML template, FastAPI routes and startup hooks are left out. So is the meanrev root route.
- Interleaving between the dashboard's page handler and its subscriber task is concurrency. `View.Read` is modelled as a read between two messages.
- Several executor processes trimming the same durable list concurrently are not modelled.
- Which service publishes on `aggregated_signals`, and who writes the `returns` list, lies outside these files. Both reach the model as inputs.
