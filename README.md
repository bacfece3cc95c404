# Breakout trader bookkeeping, modelled in Dafny

This project models the core of `create_historical_db.py`, an intraday breakout trader that
runs against an Interactive Brokers gateway. The model covers the following:

- **Request ids.** A global counter starts at 1000 and is incremented before each use. The maps
  `ID_TO_SYMBOL`, `ORDER_IDS_TO_SYMBOL` and `SELL_IDS_TO_SYMBOL` record what each request or
  order id belongs to.
- **Open requests.** `WaitList` is a list bounded at 50 that holds the open historical-data
  requests.
- **The bar store** `fetched_data`, with one dict per symbol keyed by the bar's date string.
  Bars may arrive in any order. The analyses read the store through `sorted(d.items())`, which
  orders it chronologically. So when no two different bars share a date, arrival order does not
  matter to them; if a date arrives twice with different bars, the later one wins. The outcome scan instead
  reads a dict's items in dict order and drops the first of the day. It gives the intended result
  only on a dict already ordered by `order_collected_historical_data` (:422). On such a dict the
  day's bars come in increasing date order (`Backtest.DayBarsChronological`).
- **The 4FAT signal.** It has four aggregates: the 200-bar and 20-bar average close, the highest
  of the last 6 closes, and the last close. Each gives `10 ** 10` on an empty series, and the
  largest of the four is the threshold.
- **The `Symbol` eligibility tests and its exit arithmetic:** the stop, the limit and the profit
  ratio.
- **Fill handling** in `orderStatus`. A filled buy places a STP and an LMT exit. A filled sell
  closes the position.
- **The historical outcome scan** `test_historically_for_outcome`.

Modules, listed from the bottom up:

- `Wrappers`: the `Option` type.
- `Text`: Python's ordering of `str`, Python's substring test, and the end-of-day timestamp.
- `Bars`: bars and per-symbol dicts. A dict is its list of items in insertion order, so that "only
  the sorted view matters" becomes a theorem.
- `Signals`: the `analyze_*` functions and the 4FAT maximum.
- `Symbols`: the `Symbol` record and its rules.
- `Backtest`: the outcome scan, written as a loop method and proved against a recursive
  first-exit function.
- `WaitLists`: the bounded list, as a class.
- `Engine`: a class whose fields are the module-level state and `IBapi.fetched_data`. Its methods
  are the callbacks and requests.

Gateway calls (`reqHistoricalData`, `placeOrder`) are appended to request and order logs. The
gateway's `nextOrderId()` is passed in as a parameter and must be fresh. Prices are exact reals.

Facts about the code that shape the model:

- The empty-series value is the finite `10 ** 10`. So a symbol without bars fails the
  eligibility test only at prices up to `10 ** 10` (`Symbols.EmptySeriesNeverEligible`).
- A bar delivered for an unknown request id raises `KeyError` (create_historical_db.py:179), so
  `HistoricalData` requires a registered id.
- The code has no short side, no minimum 4FAT value, and no cancellation of the sibling exit leg.

Where the code is evidently broken, the model follows its evident intent and says so at the
member:

- `calc_stop_value` and `calc_market_sell_value` read an undefined global `symbol_object`
  (:127, :130). The model reads `self`.
- `orderStatus` assigns the fill fields on the ticker string rather than on the `Symbol`
  (:203-206, :218-220). The model updates the `Symbol` looked up by that ticker.

## Model

| member | source | states |
|---|---|---|
| Text.StrLt | create_historical_db.py:252 | No contract of its own (Python's `<` on `str`); `Text.StrLtTransitive`, `Text.StrLtTotal` and `Text.StrLtAsymmetric` state that it is a strict total order. |
| Text.StrLtAsymmetric | create_historical_db.py:252 | No two keys are each before the other. |
| Text.StrLtTransitive | create_historical_db.py:252 | The `str` order that `sorted` uses on date keys is transitive. |
| Text.StrLtTotal | create_historical_db.py:252 | Any two distinct keys are ordered one way or the other, so sorting by key is well defined. |
| Text.Contains | create_historical_db.py:434 | No contract of its own (Python's `in` on `str`); `Text.ContainsIffOccurs` states its meaning. |
| Text.ContainsIffOccurs | create_historical_db.py:432-434 | Python's `day in date_of_data` holds exactly when the day string occurs at some position of the date key. |
| Text.GetDateStringForHistoricalData | create_historical_db.py:303-307 | The timestamp is the day followed by ` 23:00:00`, nine characters longer. |
| Text.DateStringInjective | create_historical_db.py:303-307 | Different days give different end-of-day timestamps. |
| Bars.Put | create_historical_db.py:179 | No contract of its own; `Bars.PutSpec`, `Bars.PutKeepsPlace`, `Bars.PutKeepsDates` and `Bars.PutIdempotent` state what storing a bar does. |
| Bars.Deliver | create_historical_db.py:174-183 | No contract of its own; `Bars.DeliverSpec` and `Bars.DeliveryOrderIrrelevant` state what a run of deliveries does. |
| Bars.OrderedSeriesHoldsStoredBars | create_historical_db.py:361-363 | The series the analyses read, `list(candles.values())` of the ordered dict, holds exactly the dict's bars, each as often as it is stored. |
| Bars.InMap | create_historical_db.py:179 | A key is in the dict exactly when some item carries it. |
| Bars.MapAt | create_historical_db.py:179 | In a dict with distinct keys, each item's bar is the one its key maps to. |
| Bars.PutSpec | create_historical_db.py:179 | `fetched_data[s][bar.date] = bar` keeps the keys distinct and maps the date to the bar with every other key unchanged. A new date is appended last; for an existing date the length stays the same (its position is `Bars.PutKeepsPlace`). |
| Bars.PutKeepsPlace | create_historical_db.py:179 | Overwriting an existing date keeps every item at its index and changes only the one stored under that date, whose bar becomes the new bar. |
| Bars.PutKeepsDates | create_historical_db.py:179 | After the store, every item is still filed under its own bar's date. |
| Bars.PutIdempotent | create_historical_db.py:179 | Delivering the same bar twice leaves the dict as one delivery does. |
| Bars.DeliverSpec | create_historical_db.py:174-183 | After any run of deliveries, the dict maps dates to bars as the old dict overridden by the delivered bars, a later bar for a date winning. |
| Bars.DeliveredPermutation | create_historical_db.py:174-183 | When no two different bars share a date, any reordering of the deliveries establishes the same date-to-bar mapping. |
| Bars.AscendingHasUniqueKeys | create_historical_db.py:252 | A strictly ascending item list has no repeated key. |
| Bars.AscendingDeterminedByMap | create_historical_db.py:252 | Two strictly ascending item lists with the same mapping are identical. |
| Bars.SortByKey | create_historical_db.py:252 | `sorted(d.items())` is strictly ascending by date key, with the same length and the same key-to-bar mapping as the dict. |
| Bars.SortIsPermutation | create_historical_db.py:252 | The sorted items are a permutation of the dict's items. |
| Bars.SortedViewDependsOnlyOnMap | create_historical_db.py:246-252 | Two dicts with the same mapping, whatever their insertion order, sort to the same list. |
| Bars.SortIdempotent | create_historical_db.py:246-252 | Sorting an already ordered dict leaves it unchanged. |
| Bars.DeliveryOrderIrrelevant | create_historical_db.py:174-183 | When no two different bars share a date, the same bars delivered in any two orders give the same sorted series. |
| Bars.LaterBarWins | create_historical_db.py:179 | A date delivered twice maps to the later bar, so two different bars under one date delivered in the two orders give different sorted series. |
| Bars.SortKeepsDates | create_historical_db.py:252 | Sorting keeps every item filed under its own bar's date. |
| Bars.OrderedSeriesChronological | create_historical_db.py:361-363 | The series the analyses read is in strictly increasing date order. |
| Bars.LatestEntry | create_historical_db.py:390-391 | No contract of its own; `Bars.LatestEntrySpec` states that it is the item with the latest date. |
| Bars.LatestEntrySpec | create_historical_db.py:390-391 | The last bar of the sorted dict is one of the dict's bars, and every other date key is earlier than its key. |
| Signals.LastClosesOfLastBars | create_historical_db.py:336 | The closes of `candles_values[-200:]` (or `[-20:]`, `[-6:]`) are the last 200 (20, 6) closes of the series. |
| Signals.MaxOfIsMaximum | create_historical_db.py:348 | Python's `max` returns one of the items, and no item exceeds it. |
| Signals.MinOfIsMinimum | create_historical_db.py:336 | The smallest item is one of the items, and no item is below it. |
| Signals.SumBetween | create_historical_db.py:336 | A sum of items in `[lo, hi]` lies between `n * lo` and `n * hi`. |
| Signals.MeanBetween | create_historical_db.py:336 | `statistics.mean` lies between the smallest and the largest item. |
| Signals.MovingAverageSpec | create_historical_db.py:333-342 | Gives the sentinel on an empty series. Otherwise it is the sum over the count of the last `min(window, n)` closes, between the lowest and highest of them. |
| Signals.SixMaxSpec | create_historical_db.py:345-348 | Gives the sentinel on an empty series. Otherwise it is the close of one of the last `min(6, n)` bars and no lower than any of them. |
| Signals.AnalyzeFor200Avg | create_historical_db.py:333-336 | No contract of its own; `Signals.MovingAverageSpec` with window 200 states its value. |
| Signals.AnalyzeFor20Avg | create_historical_db.py:339-342 | No contract of its own; `Signals.MovingAverageSpec` with window 20 states its value. |
| Signals.AnalyzeFor6MaxValue | create_historical_db.py:345-348 | No contract of its own; `Signals.SixMaxSpec` states its value. |
| Signals.AnalyzeForClosingPrice | create_historical_db.py:351-354 | No contract of its own; the sentinel on an empty series, else the last close (`Signals.EmptySeriesIsSentinel`, `Signals.ThresholdWithinRecentCloses`). |
| Signals.SixMaxAtLeastClosing | create_historical_db.py:345-354 | The 6-bar maximum is never below the closing value. |
| Signals.CollectFourFat | create_historical_db.py:364-369 | No contract of its own; the four values of the `collected_4fat` dict. |
| Signals.MaxValueOf4fat | create_historical_db.py:370 | No contract of its own; `Signals.MaxValueOf4fatSpec` states its value. |
| Signals.MaxValueOf4fatSpec | create_historical_db.py:370 | `max(collected_4fat.values())` is at least each of the four values and equal to one of them. |
| Signals.EmptySeriesIsSentinel | create_historical_db.py:333-354 | On an empty series all four values, and so the threshold, are `10 ** 10`. |
| Signals.WindowsNest | create_historical_db.py:336-348 | The last 6 or 20 closes lie inside the last 200. |
| Signals.ThresholdWithinRecentCloses | create_historical_db.py:333-370 | For a non-empty series the threshold lies between the last close and the highest of the last 200 closes. |
| Symbols.NewSymbol | create_historical_db.py:81-101 | No contract of its own; a record with only the name and id set, as the constructor leaves it. |
| Symbols.WithOpeningCandle | create_historical_db.py:393-397 | No contract of its own; `Engine.Engine.UpdateSymbolsCurrentData` states which bar it is given. |
| Symbols.With4fat | create_historical_db.py:370-372 | No contract of its own; `Engine.Engine.Get4fatValuesForSymbols` states which series it is given. |
| Symbols.FilledBuy | create_historical_db.py:203-206 | No contract of its own; `Symbols.RoundTripSettles` states its effect. |
| Symbols.FilledSell | create_historical_db.py:218-220 | No contract of its own; `Symbols.RoundTripSettles` states its effect. |
| Symbols.IsLastCandleBigEnough | create_historical_db.py:103-109 | No contract of its own; `Symbols.EligibleBracketsPrice` and `Symbols.OpeningCandleExample` state its consequences. |
| Symbols.IsLastCandleHigherThan4fat | create_historical_db.py:111-117 | No contract of its own; `Symbols.EligibleAboveEvery4fatValue` and `Symbols.EmptySeriesNeverEligible` state its consequences. |
| Symbols.IsEligibleToPurchase | create_historical_db.py:119-123 | No contract of its own; the lemmas below state what eligibility implies. |
| Symbols.CalcStopValue | create_historical_db.py:125-127 | No contract of its own; `Symbols.EligibleBracketsPrice` places it below the close. |
| Symbols.CalcMarketSellValue | create_historical_db.py:129-130 | No contract of its own; `Symbols.EligibleBracketsPrice` places it above the close, twice as far as the stop. |
| Symbols.CalcProfit | create_historical_db.py:132-138 | A ratio exactly when both caps are set, and it is `selling_cap / buying_cap`; otherwise `None`. |
| Symbols.EligibleBracketsPrice | create_historical_db.py:103-130 | An eligible symbol rose more than 1.5. Its stop is below and its limit above the close, with the limit twice as far away. |
| Symbols.EligibleAboveEvery4fatValue | create_historical_db.py:111-123 | An eligible symbol's value exceeds each of the four 4FAT values its threshold was built from. |
| Symbols.EmptySeriesNeverEligible | create_historical_db.py:115 | With no bars, no price up to `10 ** 10` passes `is_last_candle_higher_than_4fat`, so none is eligible. |
| Symbols.RoundTripSettles | create_historical_db.py:192-221 | A buy fill marks the symbol owned and keeps its exit prices. A following sell fill marks it unowned with a defined profit ratio equal to `sell_cap / buy_cap`. |
| Symbols.OpeningCandleExample | create_historical_db.py:103-130 | An opening candle from 8 to 10 against a threshold of 9 is eligible, with stop 8 and limit 14. |
| Backtest.DayBars | create_historical_db.py:432-434 | The day's points are exactly the bars of the dict items whose date key contains the day: each kept bar comes from such an item, and every such item's bar is kept. |
| Backtest.DayBarsConcat | create_historical_db.py:432-434 | The filter keeps dict order: the day's bars of two runs of items are those of the first run followed by those of the second. |
| Backtest.DayBarsChronological | create_historical_db.py:432-435 | On a dict ordered by date, with every bar under its own date, the day's bars come in strictly increasing date order, so `[1:]` drops the day's earliest bar. |
| Backtest.Candidates | create_historical_db.py:435 | No contract of its own; the day's bars without the first. |
| Backtest.FirstExitFrom | create_historical_db.py:437-443 | Finds the first bar from a position whose low breaks the stop (tested first) or whose high breaks the limit; every bar before it holds, and with no exit every bar holds. |
| Backtest.TestHistoricallyForOutcome | create_historical_db.py:425-444 | Returns the stop at the first stop exit, the limit at the first limit exit among the day's bars after the first, else `first_max`. So the result is always one of those three values. |
| WaitLists.RemoveFirst | create_historical_db.py:181 | `list.remove(x)` removes one copy of `x` if present and leaves the list as it was otherwise. |
| WaitLists.FirstIndexOf | create_historical_db.py:181 | The index it returns holds `x`, and no earlier index does. |
| WaitLists.RemoveFirstAt | create_historical_db.py:181 | When the first copy of `x` is at index `i`, `remove` returns the list with index `i` cut out and the rest in order. |
| WaitLists.RemoveFirstDropsFirstCopy | create_historical_db.py:181 | When `x` is present, `remove` cuts out exactly its first copy and keeps every other item in its order. |
| WaitLists.RemoveFirstFromDistinct | create_historical_db.py:181 | Removing from a list without repeats leaves none of the removed id. |
| WaitLists.WaitList.constructor | create_historical_db.py:45-47 | A new list is empty with the given bound. |
| WaitLists.WaitList.Append | create_historical_db.py:49-55 | Admits an element only below the bound. It appends at the end, keeps the earlier items and keeps length ≤ bound. |
| WaitLists.WaitList.Remove | create_historical_db.py:180-183 | Removes the id when present. An absent id changes nothing; the source swallows the error. |
| Engine.RemoveKeepsRequests | create_historical_db.py:180-183 | Retiring a request keeps every open id registered and listed once, and the retired id is no longer open. |
| Engine.AppendKeepsRequests | create_historical_db.py:227-229 | Registering a fresh id and listing it as open keeps the open list valid. |
| Engine.StorePutKeepsStore | create_historical_db.py:179 | Storing a bar keeps every dict of the store with distinct keys filed by date. |
| Engine.SortAllSpec | create_historical_db.py:251-252 | Walking the tickers sorts exactly their dicts (an absent one becomes empty) and keeps every other dict. |
| Engine.SortDicts | create_historical_db.py:251-252 | The loop computes the store described by `SortAll`. |
| Engine.FatAllSpec | create_historical_db.py:362-372 | Walking the tickers gives exactly their symbols the aggregates of their own bars and keeps the others. |
| Engine.Collect4fat | create_historical_db.py:362-372 | The loop computes the symbols described by `FatAll`. |
| Engine.OpenAllSpec | create_historical_db.py:389-397 | Walking the tickers gives exactly their symbols the chronologically last bar of their dict as opening candle and keeps the others. |
| Engine.SortAndOpen | create_historical_db.py:389-397 | The loop computes both the sorted store and the updated symbols. |
| Engine.SameIdentitiesKeepRegistry | create_historical_db.py:371-372 | Rewriting fields other than name and id keeps the registry intact. |
| Engine.UpdateKeepsRegistry | create_historical_db.py:202-206 | Updating one symbol's fill fields keeps the registry intact. |
| Engine.NumberedRoundTrip | create_historical_db.py:149-150 | When the k-th ticker got id 1001 + k, each symbol's id maps back to its own ticker. |
| Engine.NewRegistry | create_historical_db.py:149-150 | Builds one fresh `Symbol` per ticker with ids 1001, 1002, … in order and `ID_TO_SYMBOL` over exactly those ids, each naming the symbol holding it. |
| Engine.Engine.constructor | create_historical_db.py:149-152 | Start-up state: the registry as above, the counter at 1000 + number of tickers, empty order maps, an empty open list bounded at 50 and an empty store. |
| Engine.Engine.GenerateRequestIndex | create_historical_db.py:141-146 | Returns the incremented counter: above 1000, above every earlier id and not yet registered. |
| Engine.Engine.RequestBarsForStock | create_historical_db.py:223-232 | Registers the fresh id for the ticker, appends it to the open list and issues a request for `amount * 300` seconds of bars. Nothing else changes. |
| Engine.Engine.HistoricalData | create_historical_db.py:174-183 | Stores the bar under its date in its symbol's dict, so the date maps to the bar and every other date is unchanged. It retires the id if open and changes nothing else. |
| Engine.Engine.OrderCollectedHistoricalData | create_historical_db.py:246-252 | Every ticker's dict is replaced by its sorted, strictly ascending items; other names' dicts and all other state are unchanged. |
| Engine.Engine.Get4fatValuesForSymbols | create_historical_db.py:357-372 | After ordering, every symbol holds the four aggregates of its chronologically ordered bars and their maximum. No other state changes. |
| Engine.Engine.UpdateSymbolsCurrentData | create_historical_db.py:385-397 | Every ticker's dict is sorted, and its symbol's value, volume, diff, max and close come from the chronologically last bar. |
| Engine.Engine.PlaceBuyMarket | create_historical_db.py:254-262 | Registers the id as a live buy and logs a BUY MKT order with those fields. |
| Engine.Engine.PlaceSellStop | create_historical_db.py:264-272 | Registers the id as a live sell and logs a SELL STP order at the given price. |
| Engine.Engine.PlaceSellLimit | create_historical_db.py:274-282 | Registers the id as a live sell and logs a SELL LMT order at the given price. |
| Engine.Engine.OrderStatus | create_historical_db.py:192-221 | A filled buy marks the symbol owned at the fill price, retires the buy id, and registers and logs exactly two sells: STP at `close - diff` and LMT at `close + 2 * diff`. A filled sell marks the symbol unowned and retires the id. Any other status or id changes nothing. |

## Left out

- Argument parsing and the mode checks (create_historical_db.py:20-32, 59-66): command-line plumbing. `Backtest.TestHistoricallyForOutcome` takes two parameters for what the source reads from globals: `day`, the analysed day's `%Y%m%d` string, and `entries`, the symbol's stored bar items that the source reads from `app.fetched_data[symbol.name]` (create_historical_db.py:433).
- Connecting, the API thread and `setup_app`/`run_loop` (:285-300, :458-461): concurrency and I/O. Requests and orders sent are modelled as logs, and `nextOrderId()` as a parameter the caller keeps fresh.
- WaitList.Append: models the blocking `append` (:49-55) with the precondition that the list is below its bound. Waiting for another thread to make room is not modelled.
- `wait_for_no_open_historical_requests`, `wait_for_end_of_candle_for_new_market_day` and the 600-second throttle (:242-243, :375-382, :447-455): they only wait on time or on other threads.
- `get_last_trading_dates` and `get_formatted_end_datetimes` (:310-330): they depend on pandas' holiday calendar and the clock. Only the formatting step `get_date_string_for_historical_data` is modelled.
- `get_days_historical_data`, `get_first_candle_of_market_day_for_symbols` and `get_entire_current_day_of_data` (:234-244, :400-422): these drivers combine the modelled requests with the waits above and the clock.
- The CSV export and the top-level loop (:463-473): file output.
- `tickPrice` and `openOrder` (:168-190): they only print.
- `generate_contract_for_symbol` and the `contract` field (:69-78, :101): gateway objects carrying no state the model uses.
- Floating point: prices are exact reals.
- The `filled`, `remaining`, `permId`, `parentId`, `lastFillPrice`, `clientId` and `whyHeld` parameters of `orderStatus`: the source never reads them.
- Engine.Engine.Get4fatValuesForSymbols: loops over the traded tickers, where the source walks the keys of `fetched_data`. After ordering those keys are the tickers plus any other requested name, and such a name makes the source raise `KeyError`, so the method requires that the store holds only traded tickers.
- Engine.Engine.UpdateSymbolsCurrentData: requires bars for every ticker. With none, the source raises `IndexError` at :391.
- Engine.Engine.OrderStatus: requires, for a filled buy, that the ticker is a traded symbol, where the source raises `KeyError` at :202. It also requires that the symbol's `first_close` and `first_diff` are set, because `calc_*` at :209-210 would fail on `None`. For a filled sell it requires a traded ticker: the model updates the `Symbol` looked up by that ticker, a lookup the code itself does not make (it writes onto the string, :218-220).
- Symbols.CalcProfit: requires a non-zero buying cap once both caps are set, where the source would raise `ZeroDivisionError`.
- `main.py` and `test_historically.py` are not part of this model: neither parses as Python. `main.py` is a separate connect/request/print script. It has its own `IBapi.historicalData`, which files bars under the request id (main.py:32-34), and it never calls `create_historical_db.py`. `test_historically.py` is an unfinished CSV-driven backtest script that imports `main.py`; its two loaders are empty stubs (test_historically.py:44-48).
