# Moving-average crossover backtest and Bloomberg REST client — a Dafny model

This project models two small Python programs.

The first, `ma_cross.py`, is a moving-average crossover strategy and its backtest.
- Two trailing simple moving averages are taken over the closing prices: 100 and 400 rows by default.
- The signal is 1.0 on every row where the short average is above the long one, and 0.0 elsewhere.
- The position-change column is the first difference of the signal.
- A market-on-close portfolio holds 100 shares per unit of signal.
- The portfolio is valued at each close. Cash is the initial capital (100000.0 by default) less the cumulative cost of the position changes. The total is cash plus holdings.

The second, `bbgREST.py`, is a client for a Bloomberg-style REST service. The model covers its request logic:
- the clamp of the bar interval into [1, 1024];
- the per-ticker paging loop of `get_intradayData`. The loop makes at most 58 requests. Each request asks for bars from a time cursor to the end time. The loop stops when the last bar reaches the end time or does not move the cursor. The rows are then de-duplicated and tagged with the ticker;
- the list of `{fieldId, value}` overrides in the reference-data request body.

Modules follow the programs' structure:
- `Wrappers` holds `Option` and `Result`.
- `Series` holds range sums and pandas' `diff()`.
- `Strategy` covers `generate_signals`.
- `Portfolio` covers `MarketOnClosePortfolio`.
- `Duplicates` covers pandas' `drop_duplicates()`.
- `Intraday` covers `intradayDataReq` and `get_intradayData`.
- `ReferenceData` covers `get_refData`.

Some representation choices:
- Prices, averages, signals and shares are exact `real`s.
- A missing value, pandas' NaN, is `Option.None`.
- Times are integers.
- The HTTP round trip and the parsing of the response are one function parameter, `fetch`. It maps the request body sent to the bars returned.

## Model

| member | source | states |
|---|---|---|
| Strategy.WindowMean | ma_cross.py:40-43 | the rolling mean with `min_periods` equal to the window is defined exactly from row `window - 1` on |
| Strategy.WindowMeanWithinRange | ma_cross.py:40-43 | a defined moving average lies within any lower and upper bound of the closes in its window |
| Strategy.RollingMean | ma_cross.py:40-43 | a one-pass running-sum computation yields, row for row, the trailing window mean (missing until the window fills) |
| Strategy.CrossSignal | ma_cross.py:36-47 | the signal is 0.0 or 1.0, and it is 1.0 exactly when both averages are defined and the short one is greater |
| Strategy.Assemble | ma_cross.py:36-48 | the table keeps both average columns, every signal follows its averages, and the positions column is the first difference of the signal (missing on row 0) |
| Strategy.SignalTable | ma_cross.py:32-50 | the signals table has one row per close, its averages are the window means of the closes, its signal follows them, and its positions are the signal's changes |
| Strategy.GenerateSignals | ma_cross.py:32-50 | the table computed with running-sum rolling means is the signals table |
| Strategy.FirstSignalIsFlat | ma_cross.py:36-47 | the first row is never invested, for any windows |
| Strategy.FlatBeforeWarmup | ma_cross.py:40-47 | no row before both windows have filled is invested |
| Strategy.ChangesAreCrossings | ma_cross.py:47-48 | from row 1 on, a position change is -1, 0 or 1; +1 exactly at an upward crossing and -1 exactly at a downward crossing |
| Strategy.ChangesTelescope | ma_cross.py:48 | in any table whose positions are the signal's first difference, the signal at row i is the first signal plus the accumulated changes |
| Strategy.SignalIsAccumulatedChanges | ma_cross.py:36-48 | in the strategy's table the signal at every row is the running sum of the position changes, so `diff` loses nothing |
| Series.Diff | ma_cross.py:48 | entry 0 is missing and entry i is the change from entry i - 1 |
| Portfolio.GeneratePositions | ma_cross.py:69-72 | the position column has one entry per signal row, 100 shares per unit of signal |
| Portfolio.StrategyIsFlatOrLong | ma_cross.py:69-72 | under the strategy's signals the portfolio holds 0 or 100 shares, and 100 exactly on the invested rows |
| Portfolio.TradeCosts | ma_cross.py:75-78 | the cost of row 0, whose change is NaN, is taken as 0 (see ## Left out), and the cost of row i is the change of shares times that row's close |
| Portfolio.Holdings | ma_cross.py:77 | each row's holdings are that row's shares times that row's close |
| Portfolio.CashColumn | ma_cross.py:78 | cash on row 0 is the capital less the first cost, and each row's cash is the previous row's less that row's cost |
| Portfolio.Backtest | ma_cross.py:74-80 | the portfolio has one row per close, starts with the initial capital in cash, values holdings at the close, keeps total = cash + holdings, and moves cash only by the cost of each change of shares |
| Portfolio.CashIsCapitalLessCumulativeCosts | ma_cross.py:75-78 | in any table whose cash starts at the capital and moves only by each row's trade cost, cash on row i is the capital less the cumulative sum of the costs of rows 0..i |
| Portfolio.MarkToMarket | ma_cross.py:77-79 | buying the change of shares at the close and revaluing at that close moves the total by the carried shares' gain |
| Portfolio.LedgerProfitAndLoss | ma_cross.py:77-79 | in any table with that ledger shape, the total moves from row to row by the shares carried over times the move of the close |
| Portfolio.DailyProfitAndLoss | ma_cross.py:74-80 | the backtest's total changes from row i - 1 to row i by exactly that row's mark-to-market gain; trades themselves neither make nor lose money |
| Portfolio.TotalIsCapitalPlusGains | ma_cross.py:74-80 | the total at row i is the capital plus the first row's holdings plus the gains up to row i |
| Portfolio.FlatStartIsCapitalPlusGains | ma_cross.py:74-80 | a portfolio that starts flat starts at its capital and is then worth the capital plus its accumulated gains |
| Portfolio.StrategyBacktestIsCapitalPlusGains | ma_cross.py:62-80 | run on the strategy's positions, the portfolio's first total is exactly the initial capital and every later total is the capital plus the gains |
| Portfolio.FlatPrefixKeepsCapital | ma_cross.py:74-80 | a portfolio that has held no shares up to row i has no holdings there, and its cash and total are the initial capital |
| Portfolio.CapitalUntilWarmup | ma_cross.py:40-80 | before both moving-average windows have filled, the strategy's portfolio holds nothing and is worth exactly its initial capital, all in cash |
| Portfolio.DefaultCapitalUntilWarmup | ma_cross.py:25-80 | with the default 100/400 windows and 100000.0 of capital, rows 0 to 398 hold 100000.0 in cash and in total |
| Intraday.ClampInterval | bbgREST.py:80 | the interval sent lies in [1, 1024], an in-range interval is unchanged, and out-of-range intervals go to the nearer bound |
| Intraday.ClampIdempotentAndMonotone | bbgREST.py:80 | clamping twice equals clamping once, and clamping preserves order |
| Intraday.Shape | bbgREST.py:79-81 | the body sent is the body given with its interval field replaced by the clamp of `intradayDataReq`'s own `interval` argument; nothing else changes |
| Intraday.ShapeOverwritesBodyInterval | bbgREST.py:79-81 | the body's own interval field never reaches the service: only the argument (default 5) does; a body passed with its own interval, as at line 160, goes out clamped, and reshaping it changes nothing |
| Intraday.DefaultFirstRequest | bbgREST.py:146-160 | with the default event `'TRADE'` and interval 5, a ticker's first request asks for trade bars at interval 5 from the start time to the end time |
| Intraday.Paginate | bbgREST.py:154-171 | at most `fuel` requests, the first from the cursor; running out means every iteration was used; a settled loop's rows are the accumulated batches de-duplicated |
| Intraday.PaginateRequestsAreShaped | bbgREST.py:155-160 | every request carries the ticker, event, clamped interval and end time, and its own cursor as start time |
| Intraday.PaginateFollowsChain | bbgREST.py:163-166 | every request but the last advanced, and the next one starts at the time of the last bar fetched |
| Intraday.PaginateEndsOnLastBatch | bbgREST.py:161-171 | how the loop ended is decided by its last batch: empty (the loop raises), non-empty and not advancing (settled), or advancing with no iterations left (exhausted) |
| Intraday.FetchTicker | bbgREST.py:151-171 | one ticker sends between 1 and 58 requests, starting from the query's start time; a loop that runs out sent all 58; settled rows are all fetched bars, de-duplicated and distinct |
| Intraday.FetchTickerIsChained | bbgREST.py:155-166 | one ticker's requests are well formed and each starts where the previous batch ended |
| Intraday.FetchTickerEndsOnLastBatch | bbgREST.py:161-171 | the exit of one ticker's loop is decided by the last batch it fetched |
| Intraday.FirstBatchThatDoesNotAdvanceSettles | bbgREST.py:165-171 | a non-empty first batch that reaches the end time or stays at the start time ends the loop after one request with that batch de-duplicated |
| Intraday.CursorMovesEveryIteration | bbgREST.py:164-166 | each later request starts at a new cursor, before the end time, equal to the last bar time of the previous batch |
| Intraday.Tag | bbgREST.py:169 | every row of the ticker's table carries that ticker, in order and without loss |
| Intraday.Contribution | bbgREST.py:167-171 | a ticker adds its tagged rows when its loop settles and nothing when all 58 iterations advance |
| Intraday.GetIntradayData | bbgREST.py:146-173 | (corrected; see ## Findings) every ticker queried up to the same end time; a failure names a requested ticker whose loop met a response without bars |
| Intraday.TableFailsOnlyOnEmptyBatch | bbgREST.py:146-173 | the call succeeds exactly when no ticker's loop meets a response without bars |
| Intraday.TableHoldsSettledRows | bbgREST.py:167-170 | the table holds exactly the tagged rows of the tickers whose loops settled, nothing else and nothing missing |
| Intraday.TickersConcatenateInOrder | bbgREST.py:148-170 | the table for two ticker lists joined is the first list's table followed by the second's; the first list's failure wins, and otherwise the second's |
| Intraday.IsoFormat | bbgREST.py:151-152 | `isoformat` turns a moment into its text and is not defined on text |
| Intraday.GetIntradayDataAsWritten | bbgREST.py:146-173 | with the end time rebound inside the ticker loop, a call whose end time is already text fails on its first ticker, and no tickers give an empty table |
| Intraday.AsWrittenAgreesOnOneTicker | bbgREST.py:146-173 | with at most one ticker, the code as written and the corrected call agree |
| Intraday.AsWrittenFailsOnSecondTicker | bbgREST.py:151-152 | with two or more tickers, the code as written always fails: on the first ticker's empty batch, otherwise on the second ticker's `isoformat` |
| Intraday.BarAtEndSettles | bbgREST.py:165-171 | against a service that answers with one bar at the end time, each ticker settles on that bar |
| Intraday.BarAtEndNeverFails | bbgREST.py:146-173 | against that service the corrected call succeeds for any tickers |
| Intraday.TwoTickersExposeRebinding | bbgREST.py:151-152 | for any two tickers against that service, the corrected call succeeds and the call as written fails on the second ticker |
| Duplicates.DropDuplicates | bbgREST.py:168 | the de-duplicated rows are distinct and no more than the input |
| Duplicates.DropDuplicatesKeepsEveryRow | bbgREST.py:168 | a row is in the result exactly when it is in the input |
| Duplicates.DropDuplicatesOfDistinct | bbgREST.py:168 | distinct rows are left unchanged |
| Duplicates.DropDuplicatesIdempotent | bbgREST.py:168 | de-duplicating twice equals de-duplicating once |
| Duplicates.DropDuplicatesKeepsFirstOccurrenceOrder | bbgREST.py:168 | surviving rows appear in the order of their first occurrences |
| ReferenceData.BuildOverrides | bbgREST.py:196-197 | the override list succeeds exactly when every item has two entries; it then holds one `{fieldId: item[0], value: item[1]}` per item, in order; otherwise it fails at the first short item |
| ReferenceData.RefDataRequest | bbgREST.py:191-197 | the request body carries the tickers and fields as given and the overrides built from the items, or fails at a short item |
| ReferenceData.BuildFromPairs | bbgREST.py:196-197 | building from the `[fieldId, value]` pairs of an override list gives that list back |
| ReferenceData.PairsOfBuilt | bbgREST.py:196-197 | the pairs of a built list are the items cut to their first two entries, and exact pairs come back unchanged |

## Left out

- The HTTP layer (`bbgREST.py:47-95`): the host, `urlopen`, the JSON encoding and the request wrappers other than the interval clamp. Network I/O is a `fetch` parameter.
- Response parsing (`bbgREST.py:98-143`) is part of `fetch`. A failed request makes `parse_intradayDataReq` raise at line 136, outside its `try`. This path is not modelled: `fetch` always returns bars.
- `datetime`, `isoformat` and `pd.to_datetime`: times are integers, and the ISO text round trip is taken to preserve the moment.
- The `print` calls and the `return 1` error sentinels of the HTTP wrappers are output or part of the HTTP layer, so they are not modelled.
- `get_histData` (`bbgREST.py:176-188`) only formats dates and issues one request, so it is not modelled.
- Downloading prices with `DataReader`, plotting, and the abstract `Strategy`/`Portfolio` base classes are not modelled.
- Floating point: the model uses exact reals, so rounding in the rolling means and the cumulative sums is not modelled.
- Strategy.WindowMean: windows are at least 1. pandas' behaviour for a zero or negative window is not modelled.
- Portfolio.TradeCosts: row 0's cost is taken as 0, so cash and total are defined from row 0 on. The program imports `pandas.io.data` and calls `pd.rolling_mean`, so it ran only on old pandas (before 0.19). There, the row sum of an all-NaN row gave NaN or 0 depending on whether bottleneck was installed. Under NaN, row 0's cash and total are NaN, and only later rows agree with the model. `Portfolio.Backtest`'s `p[0].cash == initialCapital` and the first-row totals of `Portfolio.StrategyBacktestIsCapitalPlusGains`, `Portfolio.FlatPrefixKeepsCapital` and `Portfolio.CapitalUntilWarmup` rest on this choice.
- Intraday.Shape: `intradayDataReq` also writes the clamped interval back into the caller's dict (`bbgREST.py:81`). `Shape` returns a new body instead. No caller sees the difference: the paging loop builds a fresh dict on every iteration (line 155).
- Intraday.ClampInterval: the interval is an integer. Python's `int()` truncation of a float interval is not modelled.
- ReferenceData.BuildOverrides: each item is a sequence of strings. Items with values of other types, and non-sequence items, are not modelled.
- The pandas index, the column names and the `reset_index` of the intraday tables are not modelled. A table is a sequence of rows.
- Duplicates.DropDuplicates: two rows are duplicates when they are equal as `Bar` values. This stands in for pandas' comparison of the rows column by column.
- Intraday.GetIntradayData: any exception inside the loop (`KeyError` at line 162, `IndexError` at line 164) escapes the call. It is modelled as a failure naming the ticker. Rows collected for earlier tickers are lost with it.
- De-duplication happens once, when a ticker's loop settles (line 168), not batch by batch. A ticker whose 58 iterations all advance reaches no `break`, so its rows are dropped. The model follows the code on both points.

## Findings

| source | as written | input that shows it | evidently intended | confidence | as-written member | corrected member |
|---|---|---|---|---|---|---|
| bbgREST.py:152 | `endTime` is rebound to its ISO string inside the per-ticker loop, so the next ticker calls `isoformat()` on a `str` and raises `AttributeError` | any two tickers, against a service that answers every request with one bar at the end time | convert the end time to text once, before the ticker loop, and use it for every ticker | high, not executed | Intraday.GetIntradayDataAsWritten (shown by Intraday.TwoTickersExposeRebinding) | Intraday.GetIntradayData |
