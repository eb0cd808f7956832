# FIFO realized P&L of a crypto trade history

This project models the profit-and-loss core of a small crypto P&L tracker. Trades are replayed oldest first. A buy opens a lot at the back of a queue. A sell is matched against the oldest open lots first (FIFO), and each matched unit realizes the sell price minus that lot's buy price. Three pieces of the repository do this:

- `app/pnl.py` — a single-instrument library. `fifo_realized_pnl` takes (signed quantity, price) lots. `unrealized_pnl` values the lots still open at a market price.
- `ui/app.py` — the dashboard's summary. `fifo_realized` runs one lot queue and one realized total per symbol over the trade rows, with a 1e-12 dust threshold. `quote_of` takes the quote currency of a symbol. `spot_to_usd` turns each quote into a USD rate. The summary multiplies each symbol's total by its rate.
- `scripts/compute_pnl_normalized.py` — the same per-symbol pass, a rate rule of its own, one report line per symbol, and the report sorted by USD estimate, largest first, lines without an estimate last. An empty trade table stops the script with "No trades found.". A table in which nothing is realized stops it with a KeyError in the sort; so does the dashboard's summary for a period with nothing realized (see "## Findings").

Files:

- `pnl.dfy` (module `Pnl`) — the library.
- `lot_book.dfy` (module `LotBook`) — the per-symbol matching that both programs share.
- `text.dfy` (module `Text`) — lower-casing, `split` and `quote_of`.
- `rates.dfy` (module `Rates`) — both rate rules and the USD estimate.
- `ui_app.dfy` (module `UiApp`) — the dashboard.
- `pnl_normalized.dfy` (module `PnlNormalized`) — the script.
- `wrappers.dfy` (module `Wrappers`) — `Option` and `Result`.

Modelling choices:

- The source's matching and replay loops, and its rate lookups, are methods with a `while` or `for` loop. Each is proved equal to a recursive specification function: `Pnl.MatchAgainstInventory` and `Pnl.FifoRealizedPnl` to `MatchSell` and `Replay`, `LotBook.MatchQueue` to `MatchLots`, `UiApp.FifoRealized` and `PnlNormalized.RealizedQuote` to `Apply` folded by `Replay`, and `UiApp.SpotToUsd` and `PnlNormalized.QuoteToUsd` to `UiRate` and `ScriptRate`. The lemmas about those functions carry the source's promises.
- The loops that build the report lines (ui/app.py:151-154, scripts/compute_pnl_normalized.py:76-86), and the column operations at ui/app.py:159-160, are the methods `UiApp.UnpricedLines`, `PnlNormalized.NormalizeRows` and `UiApp.PriceLines`. Each is specified line by line: which symbols have a line, and what each line holds.
- The library sort `sort_values` at scripts/compute_pnl_normalized.py:88 is not a loop of the source. It is modelled by `PnlNormalized.SortByUsd`, a recursive insertion sort whose contract is what `sort_values` promises: a permutation in report order.
- A trade row is a symbol plus an optional side, amount and price. Python's `x or 0.0` reads a missing value as zero. Python's `str(None)` gives "None".
- A ticker request to the exchange is an oracle parameter, `Oracle = string -> Ticker`. It either raises or answers, with or without a last price.
- Money is exact `real` arithmetic.

The dashboard and the script differ in two places:

- Reading the side: the dashboard reads a missing side as "", the script as "none". `PnlNormalized.SameBooksAsDashboard` proves that this never changes the books.
- Pricing a quote: the script asks for `Q/USDC` only when the `Q/USDT` request raised. The dashboard also falls back when USDT answered without a last price. `Rates.RatesDisagreeOnlyOnMissingLast` pins down exactly when the two rates differ. The model follows the code here, not the script's own comments (scripts/compute_pnl_normalized.py:61 and 67), which speak of trying `Q/USDT` or `Q/USDC` and of a USDC fallback in general.

## Model

| member | source | states |
|---|---|---|
| Pnl.MatchAgainstInventory | app/pnl.py:23-33 | the sell loop leaves exactly the lots `MatchSell` leaves and adds exactly its realized P&L to the running total |
| Pnl.MatchSell | app/pnl.py:23-33 | a sell never adds lots, and a sell of a zero or negative quantity changes nothing and realizes nothing |
| Pnl.Step | app/pnl.py:15-33 | a buy leaves the realized total alone, and a sell never opens a lot |
| Pnl.FifoRealizedPnl | app/pnl.py:9-35 | the loop over trades returns the realized P&L of replaying them from an empty inventory: a positive quantity is queued, anything else is a sell |
| Pnl.MatchSellRealizesProceedsMinusCost | app/pnl.py:23-33 | a sell realizes the market value of the lots it consumes at the sell price minus what they cost |
| Pnl.MatchSellTouchesOnlyFront | app/pnl.py:28-31 | a sell removes a prefix of the lots and may shrink only the next lot, keeping its price; the later lots are unchanged |
| Pnl.MatchSellConservesQuantity | app/pnl.py:23-33 | open lots stay positive, and the open quantity falls by exactly the matched amount, min(sell, open) |
| Pnl.OversellIsDropped | app/pnl.py:23 | selling at least the open quantity empties the inventory, and the excess is dropped without effect |
| Pnl.PartialSellIsMatchedInFull | app/pnl.py:23-33 | selling less than the open quantity leaves lots open and matches the whole sell |
| Pnl.ReplayKeepsLotsPositive | app/pnl.py:15-33 | after any trade sequence every open lot has a positive quantity |
| Pnl.BuysOnlyKeepEveryLot | app/pnl.py:16-18 | buys alone queue every lot in order and realize nothing |
| Pnl.ZeroQuantityChangesNothing | app/pnl.py:16-23 | a zero-quantity trade counts as a sell of nothing and changes nothing |
| Pnl.TotalOfPositiveLots | app/pnl.py:13-17 | positive lots have a non-negative total, and it is zero only when no lot is open |
| Pnl.UnrealizedIsValueMinusCost | app/pnl.py:38-41 | unrealized P&L is the lots' market value minus their cost basis |
| Pnl.MarketValueIsPriceTimesTotal | app/pnl.py:38-41 | the market value of the lots is the price times their total quantity |
| Pnl.SellMovesUnrealizedToRealized | app/pnl.py:23-41 | at the sell price, realized plus the remaining unrealized P&L equals the unrealized P&L before the sell |
| Pnl.UnrealizedPnl | app/pnl.py:38-41 | the unrealized P&L of no open lots is zero |
| Pnl.OneRoundTripExample | app/pnl.py:9-35 | buying 1 at 100 and selling 1 at 110 realizes 10 and leaves nothing open |
| Pnl.PartialInventoryExample | app/pnl.py:9-35 | buying 2 at 100 and 1 at 110, then selling 2 at 120, realizes 40 and leaves 1 at 110 open |
| Pnl.SellWithoutLotsExample | app/pnl.py:23 | a sell with nothing open realizes nothing |
| LotBook.MatchQueue | ui/app.py:42-52 | the matching loop leaves exactly the queue `MatchLots` leaves and gains exactly its P&L |
| LotBook.MatchLots | ui/app.py:43-52 | matching never adds lots, and a sell at or below the dust threshold changes nothing and realizes nothing |
| LotBook.MatchLotsRealizesFifoCost | ui/app.py:43-52 | against positive lots at any prices, a sell realizes its price times the amount it used minus the first-in first-out cost of that amount |
| LotBook.MatchLotsKeepsPositive | ui/app.py:43-52 | matching against positive lots leaves positive lots, because a lot is popped once what is left of it is dust |
| LotBook.ReplayKeepsQueuesPositive | ui/app.py:32-52 | after any rows whose buys are not negative, every open lot of every symbol holds a positive amount |
| LotBook.ReplayedSellRealizesFifoCost | ui/app.py:32-52 | in every state the row loop reaches, the next sell realizes its price times the amount used minus the first-in first-out cost of that amount |
| LotBook.Apply | ui/app.py:33-52 | only a sell row changes the realized totals, and a row leaves the lots and the realized total of every other symbol unchanged |
| LotBook.Sell | ui/app.py:41-52 | a sell row updates the symbol's queue and realized total as `Apply` does, and only when the sell is above dust and a lot is open |
| LotBook.MatchLotsTouchesOnlyFront | ui/app.py:49-52 | matching removes a prefix of the queue and may shrink only the next lot, keeping its price; the later lots are unchanged |
| LotBook.MatchLotsStopsWhenDone | ui/app.py:43 | the loop ends only when the queue is empty or what is left to sell is dust |
| LotBook.MatchLotsUsesAtMostTheSell | ui/app.py:45-48 | a sell never uses more than its amount |
| LotBook.MatchLotsConservesUpToDust | ui/app.py:45-52 | the queue loses the amount used plus at most `Dust` in all: only the lot popped in the round that ends the sell can take a remainder with it |
| LotBook.MatchLotsAtOnePrice | ui/app.py:46 | against lots all bought at one price, the gain is the amount used times (sell price - buy price) |
| LotBook.SkippedRowsChangeNothing | ui/app.py:37-41 | a row with zero amount, or a side that is neither buy nor sell, changes neither map |
| LotBook.BuyQueuesAtTheBack | ui/app.py:39-40 | a buy appends one lot at the back of its symbol's queue and leaves the realized totals alone |
| LotBook.ApplyIsLocal | ui/app.py:32-52 | a row changes only its own symbol's queue and realized total, and the effect on that symbol depends only on that symbol's state |
| LotBook.ReplayPerSymbol | ui/app.py:30-53 | each symbol's queue and realized total are those of replaying that symbol's rows alone |
| LotBook.RealizedOnlyAfterAMatch | ui/app.py:31-53 | a symbol is in the returned map exactly when one of its sells met an open lot |
| LotBook.BuyOnlySymbolIsAbsent | ui/app.py:31-53 | a symbol that was never sold has no realized entry |
| UiApp.FifoRealized | ui/app.py:28-53 | the per-row loop returns exactly the realized totals of replaying the decoded rows in order |
| UiApp.Decode | ui/app.py:33-36 | a row keeps its symbol; a missing side reads as "", a missing price as 0, and the amount is zero exactly when it is missing or zero |
| UiApp.IncompleteRowsAreSkipped | ui/app.py:34-38 | a row with a missing or zero amount, or with no side, changes nothing |
| UiApp.MissingPriceBuysAtZero | ui/app.py:36-40 | a buy without a price queues a lot at price 0 |
| UiApp.SideIsCaseInsensitive | ui/app.py:34 | the side is read in lower case, so "BUY" is a buy |
| UiApp.SpotToUsd | ui/app.py:58-78 | the rate table has exactly the requested quotes, each with the rate `UiRate` gives it |
| UiApp.UnpricedLines | ui/app.py:149-154 | the first pass gives one line per symbol, with its total and quote, and lists every quote met |
| UiApp.PriceLines | ui/app.py:158-160 | the second pass gives each line its quote's rate and the estimate total times rate, or none without a rate |
| UiApp.Summary | ui/app.py:148-160 | as written: with nothing realized the block fails on the sort by "pnl_quote"; otherwise it has one line per realized symbol, each with its quote, its `spot_to_usd` rate and its USD estimate |
| UiApp.SummaryLines | ui/app.py:148-160 | the intended summary: one line per realized symbol, each once, with its quote, its `spot_to_usd` rate and its USD estimate, and no line when nothing is realized |
| UiApp.OneBuyRowRealizesNothing | ui/app.py:28-53 | a period whose only row is a buy realizes nothing, so the summary as written fails on it |
| UiApp.StableQuoteIsItsOwnEstimate | ui/app.py:61-65 | a stably quoted symbol's USD estimate is its realized total |
| UiApp.TwoLotsExample | ui/app.py:28-53 | buys of 2 at 100 and 1 at 110 (the second with side "BUY") then a sell of 2 at 120 realize 40 |
| Text.Lower | ui/app.py:34 | lower-casing keeps the length, maps each upper-case letter to its lower-case form and leaves other characters alone |
| Text.LowerIsIdempotent | ui/app.py:34 | lower-casing twice is lower-casing once |
| Text.SplitThenJoin | ui/app.py:56 | joining the pieces of a split with the separator gives back the string, and no piece holds the separator |
| Text.SplitHasSeveralPieces | ui/app.py:56 | a split gives more than one piece exactly when the separator occurs |
| Text.LastPieceIsSuffix | ui/app.py:56 | the last piece of a split is a separator-free suffix, and is preceded by a separator unless it is the whole string |
| Text.QuoteOf | ui/app.py:55-56 | the quote is a suffix of the symbol holding no "/"; it follows a "/" or is the whole symbol, and is the whole symbol when there is no "/" |
| Text.QuoteOfIsLastPiece | scripts/compute_pnl_normalized.py:48-49 | the `"/" in symbol` guard makes no difference: the quote is always the last piece of the split |
| Text.QuoteOfExample | ui/app.py:55-56 | "ETH/BTC" is quoted in "BTC", and "BTC" in itself |
| Rates.UiRateFallsThrough | ui/app.py:63-77 | a non-stable quote takes the USDT last price if there is one, otherwise the USDC one; it has no rate exactly when neither pair has a last price |
| Rates.FirstQuoted | ui/app.py:67-77 | a rate found by trying the bases is non-zero and is the last price of one of the pairs tried |
| Rates.UiRate | ui/app.py:63-77 | the dashboard's rate is never zero, and a stable quote's rate is 1.0 |
| Rates.LastOrNone | scripts/compute_pnl_normalized.py:65 | a ticker gives a rate exactly when it answered with a non-zero last price, and the rate is that price |
| Rates.ScriptRate | scripts/compute_pnl_normalized.py:55-72 | the script's rate is never zero, and for a quote that is neither stable nor "USD" it is the last price of the USDT or of the USDC pair |
| Rates.UsdEstimateKeepsSign | scripts/compute_pnl_normalized.py:79 | with a positive rate the USD estimate has the sign of the realized total and is zero only for a zero total |
| Rates.ScriptTriesUsdcOnlyAfterRaise | scripts/compute_pnl_normalized.py:62-72 | once the USDT request answers, the USDC ticker is never consulted, and an answer without a last price gives no rate |
| Rates.StableQuotesNeedNoLookup | scripts/compute_pnl_normalized.py:47-59 | stable quotes and "USD" have rate 1.0 in both programs, whatever the exchange says |
| Rates.RatesDisagreeOnlyOnMissingLast | scripts/compute_pnl_normalized.py:55-72 | the two rate rules differ exactly for a non-stable quote whose USDT ticker answers without a last price while its USDC ticker has one |
| PnlNormalized.RealizedQuote | scripts/compute_pnl_normalized.py:20-43 | the script's per-row loop returns exactly the realized totals of replaying its decoded rows in order |
| PnlNormalized.Decode | scripts/compute_pnl_normalized.py:24-27 | a row keeps its symbol; a missing side reads as "none", a missing price as 0, and the amount is zero exactly when it is missing or zero |
| PnlNormalized.IncompleteRowsAreSkipped | scripts/compute_pnl_normalized.py:25-29 | a row with no side reads as side "none"; such a row, or one with a missing or zero amount, changes nothing |
| PnlNormalized.RowHasSameEffectAsDashboard | scripts/compute_pnl_normalized.py:23-43 | each row has the same effect on the books in the script as in the dashboard |
| PnlNormalized.SameBooksAsDashboard | scripts/compute_pnl_normalized.py:20-43 | for any rows, the script's lots and realized totals equal the dashboard's |
| PnlNormalized.NeededQuotes | scripts/compute_pnl_normalized.py:51 | every realized symbol's quote is needed, and no quote is needed exactly when nothing is realized |
| PnlNormalized.QuoteToUsd | scripts/compute_pnl_normalized.py:51-72 | the rate map has exactly the needed quotes, each with the rate `ScriptRate` gives it |
| PnlNormalized.NormalizeRows | scripts/compute_pnl_normalized.py:75-86 | one line per realized symbol, each once, with its total, quote, looked-up rate and estimate |
| PnlNormalized.Insert | scripts/compute_pnl_normalized.py:88 | insertion adds exactly the one line and puts either it or the old first line in front |
| PnlNormalized.InsertKeepsOrder | scripts/compute_pnl_normalized.py:88 | inserting into lines in report order keeps report order |
| PnlNormalized.InsertAddsSymbol | scripts/compute_pnl_normalized.py:88 | insertion adds the line's symbol and keeps the symbols distinct when it is new |
| PnlNormalized.SortByUsd | scripts/compute_pnl_normalized.py:88 | the sorted report is a permutation of the lines, in descending estimate order with missing estimates last |
| PnlNormalized.SortKeepsSymbols | scripts/compute_pnl_normalized.py:88 | sorting keeps the set of symbols, each still once |
| PnlNormalized.SortedLinesAreInReportOrder | scripts/compute_pnl_normalized.py:88 | in a sorted report every line may precede every later one: estimates never grow down the report, and after a missing one all are missing |
| PnlNormalized.SortingSortedLinesKeepsThem | scripts/compute_pnl_normalized.py:88 | sorting a report already in order leaves it unchanged |
| PnlNormalized.NormalizedReport | scripts/compute_pnl_normalized.py:20-88 | the intended report: sorted, one line per realized symbol, each once, at the script's rate, and empty when nothing is realized |
| PnlNormalized.ComputePnlNormalized | scripts/compute_pnl_normalized.py:14-88 | as written: an empty table fails with "No trades found.", a table with nothing realized fails on the sort by "pnl_USD_est", and otherwise the report is sorted with one line per realized symbol at the script's rate |
| PnlNormalized.OneBuyRowRealizesNothing | scripts/compute_pnl_normalized.py:20-43 | a table whose only row is a buy realizes nothing, so the script as written fails on it |

## Left out

- Loading the `trades` table from the database, and its sort by timestamp: the rows are a parameter, already in timestamp order.
- The Streamlit page: login, filters, charts, metrics and caching (`st.cache_data`). None of them computes P&L.
- The network: each `fetch_ticker` call is a value of the oracle parameter. Any exception it raises is the `Raised` answer.
- Floating point: prices, amounts and totals are exact reals. Rounding, NaN and infinities are not modelled, including the way a NaN amount passes `x or 0.0`.
- `Text.Lower`: lower-cases only the ASCII letters A–Z, not other Unicode letters.
- Dictionary and set iteration order: symbols and quotes are visited in an unspecified order. The results do not depend on it.
- The `sorted(...)` order of the quotes passed to the rate lookups: the rate maps do not depend on it.
- pandas' tie order in `sort_values`: among lines with equal estimates any order is allowed. `PnlNormalized.SortByUsd` is an insertion sort that fixes one such order.
- UiApp.Summary: does not order its lines by realized total (ui/app.py:155). Once the frame has columns that order only decides how the table is displayed. The failure of that sort on an empty frame is modelled.
- The script's printing and CSV export (scripts/compute_pnl_normalized.py:89-99): output only.
- Reading `lots[sym]` on a `defaultdict` creates an empty queue for a sold symbol that has no lots. Such an entry is never observable in the results.
- `LotBook.Sell`: adds the sell's whole gain to the symbol's realized total after the loop, not round by round. In exact arithmetic the total is the same.
- `app/pnl.py` uses `Decimal`. `Pnl` uses exact reals, which agree with `Decimal` arithmetic whenever that arithmetic does not round.
- scripts/compute_pnl.py and the ingestion scripts are not part of this model.

## Findings

| source | as written | input that shows it | evidently intended | confidence | as-written member | corrected member |
|---|---|---|---|---|---|---|
| scripts/compute_pnl_normalized.py:75-88 | when no symbol realizes anything, `rows` stays empty. `pd.DataFrame(rows)` then has no columns, and `.sort_values("pnl_USD_est", ...)` raises KeyError, so nothing is printed or exported | a `trades` table whose only row is a buy of 1 BTC/USDT at 100 (`PnlNormalized.OneBuyRowRealizesNothing`) | an empty report | not executed | PnlNormalized.ComputePnlNormalized | PnlNormalized.NormalizedReport |
| ui/app.py:148-172 | when no symbol realizes anything, `pd.DataFrame(rows).sort_values("pnl_quote", ...)` raises KeyError before the `if not summary.empty` test. The `else` branch that says no P&L is realized yet can never run | a period whose only row is a buy of 1 BTC/USDT at 100 (`UiApp.OneBuyRowRealizesNothing`) | an empty summary with the "no realized P&L yet" message | not executed | UiApp.Summary | UiApp.SummaryLines |
