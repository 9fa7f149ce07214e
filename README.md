# Bollinger-band backtest, modelled in Dafny

This project models the `Backtest` class of `Trading_Ass.py`. The class is a
sequential backtesting engine. It holds a mapping from token to price series,
the cash (`capital`), the per-token holdings (`token_balance`) and an
append-only trade ledger (`trades`).

- `bollinger_bands` annotates a series with a rolling mean, a rolling sample
  standard deviation and the bands two deviations either side of the mean.
- `execute_trade` updates the cash and the holdings. A BUY always spends 100
  and buys `100/price` units. A SELL liquidates the whole position, but only
  when there is one. Every call then appends one record, whose profit
  percentage is taken on the cash after the trade.
- `run` walks the tokens in mapping order and each token's samples in index
  order. It BUYs below 97% of the lower band; otherwise it SELLs at or above
  the upper band.

Files:

- `options.dfy`: the `Option` type. A pandas NaN is `None`.
- `bollinger.dfy`: the band computation, a pure function per index, with its
  lemmas.
- `ledger.dfy`: the account as a value. It holds:
  - `Apply`, the effect of one trade on the account.
  - `Replay` and `Trades`, the fold of trades over a decision stream and the
    records that fold appends.
  - `Signal`, the decision rule.
  - `Decisions`, the decision stream of a whole run.
- `backtest.dfy`: the class `Backtest`. Its fields are updated in place by
  `ExecuteTrade` and by `Run`, and `Run` has the source's two nested loops.
  Each method's postcondition ties the new state to the fold in `ledger.dfy`.
- `scenario.dfy`: a six-close worked example with window 3, proved down to
  its ledger.

The rolling standard deviation is a parameter `stdev: seq<real> -> real`,
applied to the window of closes. Lemmas that need it to be the true sample
deviation say so with `IsSampleStdDev`: the value is non-negative and its
square is the sample variance (divided by n-1).

The model follows pandas' rolling semantics as the code uses them:

- `rolling(window)`'s window includes the current sample. The first defined
  band is therefore at index `window-1`, and a series exactly `window` long
  has one defined band.
- In the series 10, 10, 10, 4, 4, 20 with window 3, the band at index 2
  collapses to 10, 10, 10. The close 10 meets the upper band there, so the
  only record is a SELL at 10 with profit 0. The wider bands after it contain
  every later close. A window that excluded the current sample would instead
  BUY at 4 and SELL at 20. `Scenario.WorkedExample` proves the code's outcome.

## Model

| member | source | states |
|---|---|---|
| Trading.Backtest.constructor | Trading_Ass.py:10-15 | The cash starts at the initial capital (default 100000), with no holdings and no trades. The initial capital is a constant and never changes afterwards. |
| Trading.Backtest.ExecuteTrade | Trading_Ass.py:25-43 | The account moves exactly as `Ledger.Apply` says, and holdings stay non-negative. `trades` is the old ledger with exactly one record appended. That record carries the token, date, side and price, with a profit of `(capital_after - initial) / initial * 100` on the cash after the trade. |
| Trading.Backtest.Settle | Trading_Ass.py:26-35 | The cash and holdings move exactly as `Ledger.Apply` says, holdings stay non-negative, and the ledger is untouched. |
| Trading.Backtest.Consider | Trading_Ass.py:49-58 | One sample is taken in turn. The account and the ledger advance by exactly that sample's decision: a BUY, a SELL, or nothing when the band is undefined or no threshold is crossed. |
| Trading.Backtest.Run | Trading_Ass.py:45-58 | With the window 20, the account ends as the replay of the run's decision stream (tokens in mapping order, samples in index order). The ledger grows by exactly that stream's records, in that order. Holdings stay non-negative. |
| Ledger.Apply | Trading_Ass.py:26-35 | A BUY lowers the cash by exactly 100 whatever the cash, and raises the holding by `100/price`, from 0 if the token is absent. A SELL with a positive holding adds `holding*price` to the cash and sets the holding to 0. A SELL with no positive holding changes nothing. Only a BUY adds a key, and other tokens' holdings are unchanged. |
| Ledger.ApplyKeepsNonNegative | Trading_Ass.py:29-35 | At a positive price one trade keeps every holding non-negative. |
| Ledger.ReplayKeepsNonNegative | Trading_Ass.py:25-35 | Any sequence of trades at positive prices keeps every holding non-negative. |
| Ledger.ReplayFrame | Trading_Ass.py:30-35 | Trades on other tokens never change a token's holding. |
| Ledger.TradesLength | Trading_Ass.py:37-43 | There is one record per executed trade. |
| Ledger.TradeAt | Trading_Ass.py:36-43 | Record j carries decision j's token, date, side and price, and the return on the cash right after trade j. |
| Ledger.ReplayConcat | Trading_Ass.py:45-58 | Replaying two streams one after the other equals replaying their concatenation. The records of the concatenation are the records of the first, then those of the second. |
| Ledger.SignalAgainstBand | Trading_Ass.py:54-58 | For a positive close and a non-negative deviation, a BUY lies strictly below the lower band and the average. A SELL lies at or above the upper band, which is at or above the average. Every close at or above the upper band is a SELL. |
| Ledger.SeriesDecisionsExact | Trading_Ass.py:48-58 | A decision is in a series' stream if and only if some sample fires it. |
| Ledger.SeriesDecisionsPrefix | Trading_Ass.py:48 | The decisions of earlier samples come first, unchanged. |
| Ledger.SeriesDecisionsPositive | Trading_Ass.py:50-58 | Positive closes give decisions with positive prices, all naming the series' own token. |
| Ledger.WarmUpSilent | Trading_Ass.py:19-58 | No sample before index `window-1` produces a decision. |
| Ledger.ShortSeriesSilent | Trading_Ass.py:19-58 | A series shorter than the window produces no decision. |
| Ledger.NarrowWindowSilent | Trading_Ass.py:20-58 | A window of 0 or 1 never defines a band, so the series decides nothing. |
| Ledger.DecisionsConcat | Trading_Ass.py:46 | Token order: the stream of a mapping split in two is the stream of its first part, then that of its second. |
| Ledger.DecisionsPositive | Trading_Ass.py:46-58 | With positive closes, the whole stream has positive prices and can be replayed. |
| Bollinger.Sma | Trading_Ass.py:19 | The rolling mean at index i is defined if and only if `1 <= window <= i+1`. |
| Bollinger.StdDev | Trading_Ass.py:20 | The rolling sample deviation at index i is defined if and only if `2 <= window <= i+1`. |
| Bollinger.BandAt | Trading_Ass.py:19-22 | The band is defined exactly when both the mean and the deviation are, and it carries those values. |
| Bollinger.BandShape | Trading_Ass.py:17-23 | The annotation has one entry per close. A band is defined if and only if `window >= 2` and `i >= window-1`. There its SMA is the sum of `close[i-window+1..i]` divided by the window, its std is `stdev` of those closes, and the bands are `SMA ± 2·std`. |
| Bollinger.ShortSeriesUndefined | Trading_Ass.py:19-22 | A series shorter than the window has no defined band. |
| Bollinger.BandsOrdered | Trading_Ass.py:21-22 | Given `std >= 0`, `lower <= SMA <= upper`, and the bands are `4·std` apart. |
| Bollinger.MeanBounds | Trading_Ass.py:19 | The moving average lies between the smallest and the largest close of its window. |
| Bollinger.FlatWindowCollapses | Trading_Ass.py:19-22 | For a window of equal closes c and the true sample deviation, the band is exactly (c, 0, c, c). |
| Scenario.WindowStatistics | Trading_Ass.py:19-20 | The means and sample variances of the windows 10,10,4; 10,4,4 and 4,4,20 are 8 and 12; 6 and 12; 28/3 and 256/3. |
| Scenario.FlatBandSells | Trading_Ass.py:19-58 | On 10, 10, 10, 4, 4, 20 with window 3, the band at index 2 is (10, 0, 10, 10), and the close 10 is a SELL. |
| Scenario.WideBandsHold | Trading_Ass.py:19-58 | Indices 3 to 5 of that series trade nothing. |
| Scenario.ExampleDecisions | Trading_Ass.py:46-58 | That series decides a single SELL at index 2, price 10. |
| Scenario.WorkedExample | Trading_Ass.py:25-58 | From 100000 cash and no holdings, that SELL changes nothing and records a profit of 0. |

## Left out

- `save_to_db`, `fetch_data_from_db`, `initialize_token_mapping`, `populate_token_mapping` and `get_available_tokens` are SQLite I/O, outside the engine.
- `fetch_data_with_ccxt` makes network calls to an exchange and builds frames; the series are given as input instead.
- The Flask routes, the matplotlib plotting and the `__main__` driver are presentation and start-up code.
- The numerics of `rolling(window).std()` (a floating-point square root) enter as the parameter `stdev`. Results that need the true value assume `IsSampleStdDev`.
- `date.strftime('%Y-%m-%d %H:%M:%S')` is a library call; the date is an opaque string passed through unchanged.
- IEEE floating point and NaN: amounts are exact reals, 0.97 is exactly 97/100, and a NaN band is `None`. A NaN comparison is false, so it trades nothing.
- Trading.Backtest.ExecuteTrade takes a `Side` (BUY or SELL). The source would also accept any other `trade_type` string; such a call changes no state but still appends a record. `run` never passes one.
- Trading.Backtest.ExecuteTrade requires `price > 0`. A zero price would make a BUY divide by zero, and the model assumes positive closes throughout.
- Trading.Backtest.constructor requires a non-zero initial capital. With 0 the source raises ZeroDivisionError at the first trade.
- Bollinger.BollingerBands takes a `nat` window. pandas rejects a negative window.
- `bollinger_bands` also writes the SMA, StdDev and band columns onto the caller's frame. The model returns the bands as a value instead, and the frame's aliasing is not modelled.
- The mapping is a sequence of (token, series) pairs in iteration order. That its tokens are distinct is not enforced, and no property above needs it.
- Trading.Backtest.Run always uses the default window of 20, as the source does. The general window appears in the `Ledger` and `Bollinger` lemmas.
